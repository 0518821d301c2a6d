/** The reader, line by line: every kind of line that a report may contain is read for what it was written
    for. What the reader sees of a line is settled by its shape alone (a key with a value, a heading, a
    bullet, plain text); what it makes of the line then depends on the section it stands in. */
module LineReading {
  import opened Common
  import opened PlainText
  import opened ReportLines
  import opened ReportParser
  import opened ReportWords

  // ---------- the shape of lines ----------

  lemma BodyEnds(key: string, value: string)
    requires Neat(key) && Neat(value)
    ensures Neat(Body(key, value)) && Body(key, value)[0] == key[0] && ':' in Body(key, value)
  {
    var body := Body(key, value);
    assert body[0] == key[0] && body[|body| - 1] == value[|value| - 1] && body[|key|] == ':';
  }

  lemma KeyOfBody(key: string, value: string)
    requires Neat(key) && ':' !in key
    ensures KeyOf(Body(key, value)) == key
  {
    var body := Body(key, value);
    ColonAfterKey(key, " " + value);
    assert body[..|key|] == key;
    IndentedLine("", key);
    assert "" + key == key;
  }

  lemma ValueOfBody(key: string, value: string)
    requires ':' !in key && Neat(value)
    ensures ValueAfterColon(Body(key, value)) == value
  {
    var body := Body(key, value);
    ColonAfterKey(key, " " + value);
    assert body[|key| + 1..] == " " + value;
    IndentedLine(" ", value);
  }

  lemma BodyParts(key: string, value: string)
    requires Neat(key) && ':' !in key && Neat(value)
    ensures
      var body := Body(key, value);
      && Neat(body) && body[0] == key[0] && ':' in body
      && KeyOf(body) == key && ValueAfterColon(body) == value
  {
    BodyEnds(key, value);
    KeyOfBody(key, value);
    ValueOfBody(key, value);
  }

  lemma BodyIsNoHeader(key: string, value: string)
    requires value != ""
    ensures HeaderAt(Body(key, value)) == None
  {
    var body := Body(key, value);
    if EndsWithColon(body) {
      assert body[..|body| - 1][|key|] == ':';
      TitlesHaveNoColon(HEADS, body[..|body| - 1]);
    }
  }

  /** What the reader sees in a line with a key and a value. */
  lemma KeyedShape(indent: string, key: string, value: string)
    requires AllTrimmed(indent) && Neat(key) && ':' !in key && Neat(value)
    ensures
      var line, body := Keyed(indent, key, value), Body(key, value);
      && StripTrailing(line) == line && Trim(line) == body && !IsBlank(body)
      && KeyOf(body) == key && ValueAfterColon(body) == value
      && HeaderAt(body) == None && CaptionAt(body) == FirstKey(CAPTIONS, key)
      && ':' in body && body[0] == key[0]
  {
    BodyParts(key, value);
    BodyIsNoHeader(key, value);
    IndentedLine(indent, Body(key, value));
    CaptionByKey(CAPTIONS, key, " " + value);
  }

  lemma TitleAt(title: string, body: string)
    requires body == title + ":" + ""
    ensures EndsWithColon(body) && body[..|body| - 1] == title && HeaderAt(body) == HeaderOf(title)
  {
  }

  /** What the reader sees in a line that is a title with a colon. */
  lemma HeadedShape(indent: string, title: string)
    requires AllTrimmed(indent) && Neat(title)
    ensures
      var line, body := Headed(indent, title), title + ":" + "";
      && StripTrailing(line) == line && Trim(line) == body && !IsBlank(body)
      && EndsWithColon(body) && body[..|body| - 1] == title
      && HeaderAt(body) == HeaderOf(title) && body == title + ":"
      && body[0] == title[0]
  {
    var body := title + ":" + "";
    TitleAt(title, body);
    IndentedLine(indent, body);
  }

  lemma FreeCountIsFreeKey(key: string)
    requires FreeText(key)
    ensures FreeCount(key) <==> FreeKey(key)
  {
    if ':' !in key {
      CaptionByKey(CAPTIONS, key, "");
      assert key + ":" + "" == key + ":";
    }
  }

  /** What the reader sees in a line without a colon. */
  lemma PlainShape(indent: string, body: string)
    requires AllTrimmed(indent) && Neat(body) && ':' !in body
    ensures StripTrailing(indent + body) == indent + body && Trim(indent + body) == body && !IsBlank(body)
    ensures HeaderAt(body) == None && CaptionAt(body) == None && !EndsWithColon(body)
  {
    IndentedLine(indent, body);
    NoColonNoCaption(CAPTIONS, body);
    assert body[|body| - 1] in body;
  }

  lemma {:induction false} NoColonNoCaption(captions: seq<Caption>, body: string)
    requires ':' !in body
    ensures FirstCaption(captions, body) == None
  {
    if captions != [] {
      var text := CaptionText(captions[0]) + ":";
      assert text[|text| - 1] == ':';
      assert forall i | 0 <= i < |body| :: body[i] in body;
      NoColonNoCaption(captions[1..], body);
    }
  }

  lemma NumbersAreNeat(n: nat)
    ensures Neat(Digits(n)) && OneLine(Digits(n)) && ':' !in Digits(n)
    ensures IsDigit(Digits(n)[0])
  {
    DigitsRead(n);
    assert Digits(n)[0] in Digits(n) && Digits(n)[|Digits(n)| - 1] in Digits(n);
  }

  // ---------- reading lines of each shape ----------

  lemma ByContent(st: ReaderState, line: string, body: string)
    requires StripTrailing(line) == line && Trim(line) == body && !IsBlank(body)
    requires HeaderAt(body) == None && CaptionAt(body) == None
    ensures body != "" && ReadLine(st, line) == Content(st, line, body)
  {
  }

  /** A line with a free key means what its section says; its key and value are as written. */
  lemma ReadKeyed(st: ReaderState, indent: string, key: string, value: string)
    requires AllTrimmed(indent) && FreeKey(key) && Neat(value)
    ensures
      var line, body := Keyed(indent, key, value), Body(key, value);
      && ReadLine(st, line) == Content(st, line, body)
      && KeyOf(body) == key && ValueAfterColon(body) == value
      && ':' in body && body[0] == key[0]
  {
    KeyedShape(indent, key, value);
    ByContent(st, Keyed(indent, key, value), Body(key, value));
  }

  lemma ReadCaptioned(st: ReaderState, caption: Caption, key: string, value: string)
    requires Neat(value) && key == CaptionText(caption)
    ensures ReadLine(st, Keyed("", key, value)) ==
      match WithCaption(st.response, caption, Body(key, value))
      case Err(e) => Err(e)
      case Ok(response) => Ok(st.(response := response))
    ensures ValueAfterColon(Body(key, value)) == value
  {
    CaptionsAreKeys(caption);
    CaptionsAreNeat(caption);
    KeyedShape("", key, value);
    AllCaptionsListed(caption);
    CaptionsAreFound(CAPTIONS, caption);
  }

  lemma NumberText(n: nat, unit: string)
    requires Fits(n) && IsUnit(unit)
    ensures Neat(Digits(n) + unit) && OneLine(Digits(n) + unit)
    ensures FirstInteger(Digits(n) + unit) == Ok(Some(n))
  {
    NumbersAreNeat(n);
    DigitsRead(n);
    FirstNumber(n, unit);
    var text := Digits(n) + unit;
    if unit == "" {
      assert text == Digits(n);
    } else {
      assert text[|text| - 1] == unit[|unit| - 1];
    }
  }

  lemma CaptionedTextIsRead(st: ReaderState, caption: Caption, text: string)
    requires TextCaption(caption) && FreeText(text)
    ensures ReadLine(st, Render(CaptionedText(caption, text))) == Ok(Meaning(st, CaptionedText(caption, text)))
  {
    ReadCaptioned(st, caption, CaptionText(caption), text);
  }

  lemma NumberedValue(r: Response, caption: Caption, body: string, n: int)
    requires !TextCaption(caption) && FirstInteger(ValueAfterColon(body)) == Ok(Some(n))
    ensures WithCaption(r, caption, body) == Ok(Numbered(r, caption, n))
  {
  }

  lemma ReadCaptionedNumber(st: ReaderState, caption: Caption, key: string, value: string, n: int)
    requires !TextCaption(caption) && key == CaptionText(caption) && Neat(value) && FirstInteger(value) == Ok(Some(n))
    ensures ReadLine(st, Keyed("", key, value)) == Ok(st.(response := Numbered(st.response, caption, n)))
  {
    ReadCaptioned(st, caption, key, value);
    NumberedValue(st.response, caption, Body(key, value), n);
  }

  lemma CaptionedNumberIsRead(st: ReaderState, caption: Caption, n: int, unit: string)
    requires !TextCaption(caption) && Fits(n) && IsUnit(unit)
    ensures ReadLine(st, Render(CaptionedNumber(caption, n, unit))) == Ok(Meaning(st, CaptionedNumber(caption, n, unit)))
  {
    NumberText(n, unit);
    ReadCaptionedNumber(st, caption, CaptionText(caption), SignedText(n) + unit, n);
  }

  lemma ReadHeader(st: ReaderState, indent: string, title: string)
    requires AllTrimmed(indent) && Neat(title) && ':' !in title && HeaderOf(title).Some?
    ensures ReadLine(st, Headed(indent, title)) == Ok(st.(section := SectionOf(HeaderOf(title).value)))
  {
    HeadedShape(indent, title);
  }

  lemma HeadIsRead(st: ReaderState, head: Head)
    ensures ReadLine(st, Headed("", HeadText(head))) == Ok(st.(section := SectionOf(head)))
  {
    HeadsAreTitles(head);
    ReadHeader(st, "", HeadText(head));
  }

  lemma EntryContent(st: ReaderState, line: string, body: string, key: string, n: nat)
    requires body != "" && ':' in body && (st.section.EventCounts? || st.section.SeverityCounts?)
    requires KeyOf(body) == key && FirstInteger(ValueAfterColon(body)) == Ok(Some(n))
    ensures Content(st, line, body) == Ok(Meaning(st, Entry(key, n)))
  {
  }

  lemma ReadEntry(st: ReaderState, indent: string, key: string, value: string, n: nat)
    requires AllTrimmed(indent) && FreeKey(key) && Neat(value) && FirstInteger(value) == Ok(Some(n))
    requires st.section.EventCounts? || st.section.SeverityCounts?
    ensures ReadLine(st, Keyed(indent, key, value)) == Ok(Meaning(st, Entry(key, n)))
  {
    ReadKeyed(st, indent, key, value);
    EntryContent(st, Keyed(indent, key, value), Body(key, value), key, n);
  }

  lemma FreeEntryIsRead(st: ReaderState, key: string, n: nat)
    requires FreeKey(key) && Fits(n) && (st.section.EventCounts? || st.section.SeverityCounts?)
    ensures ReadLine(st, Render(Entry(key, n))) == Ok(Meaning(st, Entry(key, n)))
  {
    NumberText(n, "");
    assert Digits(n) + "" == Digits(n);
    ReadEntry(st, "  ", key, Digits(n), n);
  }

  /** What the reader sees in a line whose key may hold colons. */
  lemma LooseShape(indent: string, key: string, value: string)
    requires AllTrimmed(indent) && Neat(key) && Neat(value)
    ensures
      var line, body := Keyed(indent, key, value), Body(key, value);
      && StripTrailing(line) == line && Trim(line) == body && !IsBlank(body) && HeaderAt(body) == None
      && ':' in body && body[0] == key[0]
  {
    BodyEnds(key, value);
    BodyIsNoHeader(key, value);
    IndentedLine(indent, Body(key, value));
  }

  lemma IgnoredLoose(st: ReaderState, indent: string, key: string, value: string)
    requires AllTrimmed(indent) && Neat(key) && Neat(value)
    requires st.section.OtherSection? && CaptionAt(Body(key, value)).None?
    ensures ReadLine(st, Keyed(indent, key, value)) == Ok(st)
  {
    LooseShape(indent, key, value);
    ByContent(st, Keyed(indent, key, value), Body(key, value));
    IgnoredContent(st, Keyed(indent, key, value), Body(key, value));
  }

  lemma QuietEntryIsRead(st: ReaderState, key: string, n: nat)
    requires FreeText(key) && st.section.OtherSection? && CaptionAt(Body(key, Digits(n))).None?
    ensures ReadLine(st, Render(Entry(key, n))) == Ok(st)
  {
    NumbersAreNeat(n);
    IgnoredLoose(st, "  ", key, Digits(n));
  }

  lemma EntryIsRead(st: ReaderState, key: string, n: nat)
    requires FreeText(key) && Fits(n) && Belongs(Entry(key, n), st.section)
    ensures ReadLine(st, Render(Entry(key, n))) == Ok(Meaning(st, Entry(key, n)))
  {
    if st.section.OtherSection? {
      QuietEntryIsRead(st, key, n);
    } else {
      FreeCountIsFreeKey(key);
      FreeEntryIsRead(st, key, n);
    }
  }

  lemma MessageContent(st: ReaderState, line: string, body: string, key: MessageKey, n: nat)
    requires st.section.MessageSummary? && ':' in body
    requires KeyOf(body) == MessageText(key) && FirstInteger(ValueAfterColon(body)) == Ok(Some(n))
    ensures Content(st, line, body) == Ok(Meaning(st, MessageLine(key, n)))
  {
  }

  lemma ReadMessage(st: ReaderState, key: MessageKey, text: string, n: nat)
    requires st.section.MessageSummary? && FreeKey(text) && text == MessageText(key) && Fits(n)
    ensures ReadLine(st, Keyed("  ", text, Digits(n))) == Ok(Meaning(st, MessageLine(key, n)))
  {
    NumberText(n, "");
    assert Digits(n) + "" == Digits(n);
    ReadKeyed(st, "  ", text, Digits(n));
    MessageContent(st, Keyed("  ", text, Digits(n)), Body(text, Digits(n)), key, n);
  }

  lemma MessageIsRead(st: ReaderState, key: MessageKey, n: nat)
    requires Fits(n) && st.section.MessageSummary?
    ensures ReadLine(st, Keyed("  ", MessageText(key), Digits(n))) == Ok(Meaning(st, MessageLine(key, n)))
  {
    MessageKeysAreFree(key);
    ReadMessage(st, key, MessageText(key), n);
  }

  /** A line that the reader's current section makes nothing of. */
  lemma IgnoredContent(st: ReaderState, line: string, body: string)
    requires body != ""
    requires st.section.NoSection? || st.section.OtherSection? || (st.section.RootCauses? && body[0] != '-')
    ensures Content(st, line, body) == Ok(st)
  {
    assert "- "[0] == '-';
  }

  lemma IgnoredKeyed(st: ReaderState, indent: string, key: string, value: string)
    requires AllTrimmed(indent) && FreeKey(key) && Neat(value)
    requires st.section.NoSection? || st.section.OtherSection? || (st.section.RootCauses? && key[0] != '-')
    ensures ReadLine(st, Keyed(indent, key, value)) == Ok(st)
  {
    ReadKeyed(st, indent, key, value);
    IgnoredContent(st, Keyed(indent, key, value), Body(key, value));
  }

  lemma PlainContent(st: ReaderState, line: string, body: string)
    requires body != "" && body[0] != '-' && ':' !in body && !EndsWithColon(body)
    ensures Content(st, line, body) == Ok(st)
  {
    assert "- "[0] == '-';
  }

  lemma IgnoredPlain(st: ReaderState, indent: string, text: string)
    requires AllTrimmed(indent) && Neat(text) && ':' !in text && text[0] != '-'
    ensures ReadLine(st, indent + text) == Ok(st)
  {
    PlainShape(indent, text);
    ByContent(st, indent + text, text);
    PlainContent(st, indent + text, text);
  }

  lemma PlainIsRead(st: ReaderState, word: Word)
    ensures ReadLine(st, Indent(word) + WordText(word)) == Ok(st)
  {
    WordsAreFree(word);
    IgnoredPlain(st, Indent(word), WordText(word));
  }

  lemma UnderlineIsRead(st: ReaderState, n: nat)
    requires n > 0
    ensures ReadLine(st, "" + Rule(n)) == Ok(st)
  {
    RulesAreNeat(n);
    IgnoredPlain(st, "", Rule(n));
  }

  lemma IgnoredHeader(st: ReaderState, indent: string, title: string)
    requires AllTrimmed(indent) && FreeName(title) && title[0] != '-'
    requires st.section.OtherSection? || st.section.RootCauses?
    ensures ReadLine(st, Headed(indent, title)) == Ok(st)
  {
    HeadedShape(indent, title);
    CaptionByKey(CAPTIONS, title, "");
    ByContent(st, Headed(indent, title), title + ":" + "");
    IgnoredContent(st, Headed(indent, title), title + ":" + "");
  }

  lemma SubHeadingIsRead(st: ReaderState, word: Word)
    requires st.section.OtherSection? || st.section.RootCauses?
    ensures ReadLine(st, Headed(Indent(word), WordText(word))) == Ok(st)
  {
    WordsAreFree(word);
    IgnoredHeader(st, Indent(word), WordText(word));
  }

  lemma BulletShape(text: string)
    requires FreeText(text)
    ensures
      var line, body := "  " + ("- " + text), "- " + text;
      && StripTrailing(line) == line && Trim(line) == body && !IsBlank(body)
      && HeaderAt(body) == None && CaptionAt(body) == None
  {
    var body := "- " + text;
    assert body[|body| - 1] == text[|text| - 1];
    IndentedLine("  ", body);
    BulletsHaveNoCaption(CAPTIONS, body);
    if EndsWithColon(body) {
      TitlesStart(HEADS, body[..|body| - 1]);
    }
  }

  lemma BulletContent(st: ReaderState, line: string, body: string, text: string)
    requires st.section.RootCauses? && body == "- " + text
    ensures Content(st, line, body) == Ok(Meaning(st, Bullet(text)))
  {
    assert body[..2] == "- " && body[2..] == text;
  }

  lemma BulletTextIsRead(st: ReaderState, text: string)
    requires FreeText(text) && st.section.RootCauses?
    ensures ReadLine(st, "  " + ("- " + text)) == Ok(Meaning(st, Bullet(text)))
  {
    var line, body := "  " + ("- " + text), "- " + text;
    BulletShape(text);
    ByContent(st, line, body);
    BulletContent(st, line, body, text);
  }

  lemma {:induction false} BulletsHaveNoCaption(captions: seq<Caption>, body: string)
    requires body != "" && body[0] == '-'
    ensures FirstCaption(captions, body) == None
  {
    if captions != [] {
      NoCaptionStarts(captions[0]);
      var prefix := CaptionText(captions[0]) + ":";
      assert prefix[0] == CaptionText(captions[0])[0];
      BulletsHaveNoCaption(captions[1..], body);
    }
  }

  lemma {:induction false} TitlesStart(heads: seq<Head>, title: string)
    requires title != "" && title[0] == '-'
    ensures FirstHead(heads, title) == None
  {
    if heads != [] {
      assert HeadText(heads[0])[0] != '-';
      TitlesStart(heads[1..], title);
    }
  }

  // ---------- the task summary ----------

  lemma TaskNameIndent(name: string)
    requires Neat(name)
    ensures StartsWith(Headed("  ", name), "  ") && !StartsWith(Headed("  ", name), "    ")
  {
    var line := Headed("  ", name);
    assert line[2] == name[0];
    assert line[..2] == "  ";
    assert "    "[2] == ' ';
  }

  lemma NameIsRead(st: ReaderState, name: string)
    requires FreeText(name) && FreeTask(name) && st.section.TaskSummary?
    ensures ReadLine(st, Headed("  ", name)) == Ok(Meaning(st, TaskName(name)))
  {
    var line, body := Headed("  ", name), name + ":" + "";
    HeadedShape("  ", name);
    ByContent(st, line, body);
    TaskNameIndent(name);
    TaskNameContent(st, line, body, name);
  }

  lemma TaskNameContent(st: ReaderState, line: string, body: string, name: string)
    requires st.section.TaskSummary? && EndsWithColon(body) && body[..|body| - 1] == name
    requires StartsWith(line, "  ") && !StartsWith(line, "    ")
    ensures Content(st, line, body) == Ok(Meaning(st, TaskName(name)))
  {
  }

  lemma FieldContent(st: ReaderState, line: string, body: string)
    requires st.section.TaskSummary? && ':' in body && StartsWith(line, "    ")
    ensures Content(st, line, body) ==
      Ok(if st.current.Some? then WithMetric(st, WithField(st.current.value.metric, body)) else st)
  {
  }

  lemma FieldIndent(key: string, value: string)
    ensures StartsWith(Keyed("    ", key, value), "    ")
  {
    assert Keyed("    ", key, value)[..4] == "    ";
  }

  lemma {:induction false} SignedIsRead(i: int)
    requires -MAX_INT - 1 <= i <= MAX_INT
    ensures Neat(SignedText(i)) && OneLine(SignedText(i)) && IntegerOrZero(SignedText(i)) == i
  {
    var size: nat := if i < 0 then -i else i;
    NumbersAreNeat(size);
    DigitsRead(size);
    var text := SignedText(i);
    if i < 0 {
      assert text[1..] == Digits(size);
      assert text[|text| - 1] == Digits(size)[|Digits(size)| - 1];
    } else {
      assert IsDigit(text[0]);
    }
  }

  lemma {:induction false} PointAfter(whole: string, rest: string)
    requires '.' !in whole
    ensures PointAt(whole + "." + rest) == |whole|
  {
    var s := whole + "." + rest;
    assert s[|whole|] == '.';
    assert forall k | 0 <= k < |whole| :: s[k] == whole[k] && whole[k] in whole;
  }

  lemma TenthsAreRead(tenths: nat)
    ensures Neat(TenthsText(tenths)) && OneLine(TenthsText(tenths))
    ensures DecimalOrZero(TenthsText(tenths)) == tenths as real / 10.0
  {
    var whole, last := Digits(tenths / 10), [DigitChar(tenths % 10)];
    NumbersAreNeat(tenths / 10);
    DigitsRead(tenths / 10);
    var text := TenthsText(tenths);
    assert text == whole + "." + last;
    assert '.' !in whole;
    PointAfter(whole, last);
    assert text[..|whole|] == whole && text[|whole| + 1..] == last;
    assert text[0] == whole[0] && text[|text| - 1] == last[0];
    assert last[1..] == "";
    assert Fraction(last) == (tenths % 10) as real / 10.0;
    TenthsSplit(tenths);
  }

  lemma TenthsSplit(tenths: nat)
    ensures (tenths / 10) as real + (tenths % 10) as real / 10.0 == tenths as real / 10.0
  {
    assert tenths == 10 * (tenths / 10) + tenths % 10;
  }

  lemma MetricByKey(m: TaskMetric, key: MetricKey, value: int, body: string)
    requires KeyOf(body) == MetricText(key) && IntegerOrZero(ValueAfterColon(body)) == value
    ensures WithField(m, body) == Measured(m, key, value)
  {
  }

  lemma MetricContent(st: ReaderState, line: string, body: string, key: MetricKey, value: int)
    requires st.section.TaskSummary? && ':' in body && StartsWith(line, "    ")
    requires KeyOf(body) == MetricText(key) && IntegerOrZero(ValueAfterColon(body)) == value
    ensures Content(st, line, body) == Ok(Meaning(st, MetricLine(key, value)))
  {
    FieldContent(st, line, body);
    if st.current.Some? {
      MetricByKey(st.current.value.metric, key, value, body);
    }
  }

  lemma ReadMetric(st: ReaderState, key: MetricKey, text: string, value: int)
    requires st.section.TaskSummary? && FreeKey(text) && text == MetricText(key)
    requires -MAX_INT - 1 <= value <= MAX_INT
    ensures ReadLine(st, Keyed("    ", text, SignedText(value))) == Ok(Meaning(st, MetricLine(key, value)))
  {
    var shown := SignedText(value);
    SignedIsRead(value);
    ReadKeyed(st, "    ", text, shown);
    FieldIndent(text, shown);
    MetricContent(st, Keyed("    ", text, shown), Body(text, shown), key, value);
  }

  lemma MetricTextIsRead(st: ReaderState, key: MetricKey, value: int)
    requires -MAX_INT - 1 <= value <= MAX_INT && st.section.TaskSummary?
    ensures ReadLine(st, Keyed("    ", MetricText(key), SignedText(value))) == Ok(Meaning(st, MetricLine(key, value)))
  {
    MetricKeysAreFree(key);
    ReadMetric(st, key, MetricText(key), value);
  }

  lemma AverageByKey(m: TaskMetric, value: real, body: string)
    requires KeyOf(body) == AVERAGE_KEY && DecimalOrZero(ValueAfterColon(body)) == value
    ensures WithField(m, body) == m.(avgDurationMs := value)
  {
  }

  lemma AverageContent(st: ReaderState, line: string, body: string, tenths: nat)
    requires st.section.TaskSummary? && ':' in body && StartsWith(line, "    ")
    requires KeyOf(body) == AVERAGE_KEY && DecimalOrZero(ValueAfterColon(body)) == tenths as real / 10.0
    ensures Content(st, line, body) == Ok(Meaning(st, AverageLine(tenths)))
  {
    FieldContent(st, line, body);
    if st.current.Some? {
      AverageByKey(st.current.value.metric, tenths as real / 10.0, body);
    }
  }

  lemma ReadAverage(st: ReaderState, key: string, tenths: nat)
    requires st.section.TaskSummary? && FreeKey(key) && key == AVERAGE_KEY
    ensures ReadLine(st, Keyed("    ", key, TenthsText(tenths))) == Ok(Meaning(st, AverageLine(tenths)))
  {
    var shown := TenthsText(tenths);
    TenthsAreRead(tenths);
    ReadKeyed(st, "    ", key, shown);
    FieldIndent(key, shown);
    AverageContent(st, Keyed("    ", key, shown), Body(key, shown), tenths);
  }

  lemma AverageTextIsRead(st: ReaderState, tenths: nat)
    requires st.section.TaskSummary?
    ensures ReadLine(st, Keyed("    ", AVERAGE_KEY, TenthsText(tenths))) == Ok(Meaning(st, AverageLine(tenths)))
  {
    AverageKeyIsFree();
    ReadAverage(st, AVERAGE_KEY, tenths);
  }

  // ---------- other lines ----------

  lemma WindowKey(startMs: nat, endMs: nat)
    ensures
      var key := Digits(startMs) + "-" + Digits(endMs) + " ms";
      FreeKey(key) && key[0] != '-'
  {
    var key := Digits(startMs) + "-" + Digits(endMs) + " ms";
    NumbersAreNeat(startMs);
    NumbersAreNeat(endMs);
    assert key[0] == Digits(startMs)[0] && key[|key| - 1] == 's';
    FreeByFirst(key);
  }

  lemma UnusedIsRead(st: ReaderState, word: Word, text: string)
    requires FreeText(text) && (st.section.NoSection? || st.section.OtherSection? || st.section.RootCauses?)
    ensures ReadLine(st, Keyed(Indent(word), WordText(word), text)) == Ok(st)
  {
    WordsAreFree(word);
    IgnoredKeyed(st, Indent(word), WordText(word), text);
  }

  lemma DashedIsNeat(key: string, value: string)
    requires key != "" && key[0] == '-' && Neat(value)
    ensures
      var body := Body(key, value);
      Neat(body) && body[0] == '-' && HeaderAt(body) == None && CaptionAt(body) == None
  {
    var body := Body(key, value);
    assert body[0] == '-' && body[|body| - 1] == value[|value| - 1];
    BodyIsNoHeader(key, value);
    BulletsHaveNoCaption(CAPTIONS, body);
  }

  lemma DashedIsIgnored(st: ReaderState, key: string, value: string)
    requires st.section.OtherSection? && key != "" && key[0] == '-' && Neat(value)
    ensures ReadLine(st, Keyed("    ", key, value)) == Ok(st)
  {
    var line, body := Keyed("    ", key, value), Body(key, value);
    DashedIsNeat(key, value);
    IndentedLine("    ", body);
    ByContent(st, line, body);
    IgnoredContent(st, line, body);
  }

  lemma SubEntryIsRead(st: ReaderState, task: string, n: nat)
    requires st.section.OtherSection?
    ensures ReadLine(st, Render(SubEntry(task, n))) == Ok(st)
  {
    NumbersAreNeat(n);
    assert ("- " + task)[0] == '-';
    DashedIsIgnored(st, "- " + task, Digits(n));
  }

  lemma WindowLineIsRead(st: ReaderState, startMs: nat, endMs: nat, text: string)
    requires FreeText(text) && st.section.RootCauses?
    ensures ReadLine(st, Render(WindowLine(startMs, endMs, text))) == Ok(st)
  {
    WindowKey(startMs, endMs);
    IgnoredKeyed(st, "  ", Digits(startMs) + "-" + Digits(endMs) + " ms", text);
  }

  /** Every line the report may contain is read for what it means. */
  lemma LineIsRead(st: ReaderState, line: Line)
    requires Writable(line) && Belongs(line, st.section)
    ensures ReadLine(st, Render(line)) == Ok(Meaning(st, line))
  {
    match line
    case Empty =>
    case Plain(word) => PlainIsRead(st, word);
    case Underline(length) => UnderlineIsRead(st, length);
    case CaptionedText(caption, text) => CaptionedTextIsRead(st, caption, text);
    case CaptionedNumber(caption, n, unit) => CaptionedNumberIsRead(st, caption, n, unit);
    case Heading(head) => HeadIsRead(st, head);
    case SubHeading(word) => SubHeadingIsRead(st, word);
    case Entry(key, n) => EntryIsRead(st, key, n);
    case MessageLine(key, n) => MessageIsRead(st, key, n);
    case TaskName(name) => NameIsRead(st, name);
    case MetricLine(key, value) => MetricTextIsRead(st, key, value);
    case AverageLine(tenths) => AverageTextIsRead(st, tenths);
    case Unused(word, text) => UnusedIsRead(st, word, text);
    case SubEntry(task, n) => SubEntryIsRead(st, task, n);
    case Bullet(text) => BulletTextIsRead(st, text);
    case WindowLine(startMs, endMs, text) => WindowLineIsRead(st, startMs, endMs, text);
  }
}
