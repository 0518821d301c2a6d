/** Which names and keys the reader takes in as they were written, and what it makes of the
    others. */
module NameReading {
  import opened Common
  import opened LineReading
  import opened PlainText
  import opened ReportLines
  import opened ReportParser
  import opened ReportWords

  // ---------- names that are not free ----------

  lemma TitledTaskIsLost(st: ReaderState, head: Head, title: string)
    requires Neat(title) && ':' !in title && HeaderOf(title) == Some(head)
    ensures ReadLine(st, Render(TaskName(title))) == Ok(st.(section := SectionOf(head)))
  {
    ReadHeader(st, "  ", title);
  }

  /** A task named like a section title is lost: its line opens that section instead. */
  lemma ReservedTaskIsLost(st: ReaderState, head: Head)
    ensures ReadLine(st, Render(TaskName(HeadText(head)))) == Ok(st.(section := SectionOf(head)))
  {
    HeadsAreTitles(head);
    TitledTaskIsLost(st, head, HeadText(head));
  }

  /** What a captioned line makes of the response. */
  function Spoken(r: Response, caption: Caption, n: nat): Response {
    if TextCaption(caption) then Captioned(r, caption, Digits(n)) else Numbered(r, caption, n)
  }

  lemma SpokenValue(r: Response, caption: Caption, body: string, text: string, n: nat)
    requires ValueAfterColon(body) == text && text == Digits(n) && FirstInteger(text) == Ok(Some(n))
    ensures WithCaption(r, caption, body) == Ok(Spoken(r, caption, n))
  {
  }

  lemma CaptionedKeyIsMisread(st: ReaderState, caption: Caption, key: string, text: string, n: nat)
    requires key == CaptionText(caption) && Neat(text) && text == Digits(n) && FirstInteger(text) == Ok(Some(n))
    ensures ReadLine(st, Keyed("  ", key, text)) == Ok(st.(response := Spoken(st.response, caption, n)))
  {
    ReadIndentedCaption(st, caption, key, text);
    SpokenValue(st.response, caption, Body(key, text), text, n);
  }

  /** A counter key like a caption is misread: in any section, its count becomes that caption's value. */
  lemma ReservedKeyIsMisread(st: ReaderState, caption: Caption, n: nat)
    requires Fits(n)
    ensures ReadLine(st, Render(Entry(CaptionText(caption), n))) == Ok(st.(response := Spoken(st.response, caption, n)))
  {
    NumberText(n, "");
    assert Digits(n) + "" == Digits(n);
    CaptionedKeyIsMisread(st, caption, CaptionText(caption), Digits(n), n);
  }

  lemma ReadIndentedCaption(st: ReaderState, caption: Caption, key: string, value: string)
    requires Neat(value) && key == CaptionText(caption)
    ensures ReadLine(st, Keyed("  ", key, value)) ==
      match WithCaption(st.response, caption, Body(key, value))
      case Err(e) => Err(e)
      case Ok(response) => Ok(st.(response := response))
    ensures ValueAfterColon(Body(key, value)) == value
  {
    CaptionsAreKeys(caption);
    CaptionsAreNeat(caption);
    KeyedShape("  ", key, value);
    AllCaptionsListed(caption);
    CaptionsAreFound(CAPTIONS, caption);
  }

  // ---------- exactly which names are read ----------

  /** What the reader looks at in a line. */
  function Seen(raw: string): string {
    Trim(StripTrailing(raw))
  }

  /** A captioned line leaves section, tasks, counters, messages and causes alone. */
  predicate OnlyCaptions(before: ReaderState, after: ReaderState) {
    && after.section == before.section && after.current == before.current
    && after.response.eventCounts == before.response.eventCounts
    && after.response.severityCounts == before.response.severityCounts
    && after.response.taskMetrics == before.response.taskMetrics
    && after.response.messages == before.response.messages
    && after.response.rootCauses == before.response.rootCauses
  }

  lemma CaptionedLine(st: ReaderState, raw: string)
    requires HeaderAt(Seen(raw)).None? && CaptionAt(Seen(raw)).Some? && !IsBlank(Seen(raw))
    ensures ReadLine(st, raw) ==
      match WithCaption(st.response, CaptionAt(Seen(raw)).value, Seen(raw))
      case Err(e) => Err(e)
      case Ok(response) => Ok(st.(response := response))
    ensures ReadLine(st, raw).Ok? ==> OnlyCaptions(st, ReadLine(st, raw).value)
  {
  }

  /** A line taken for a title or a caption names no new task. */
  lemma TitleNamesNoTask(st: ReaderState, line: string, name: string)
    requires !IsBlank(Seen(line)) && HeaderAt(Seen(line)).Some?
    requires st.current.None? || st.current.value.name != name
    ensures ReadLine(st, line) != Ok(Meaning(st, TaskName(name)))
  {
  }

  lemma CaptionNamesNoTask(st: ReaderState, line: string, name: string)
    requires !IsBlank(Seen(line)) && HeaderAt(Seen(line)).None? && CaptionAt(Seen(line)).Some?
    requires st.current.None? || st.current.value.name != name
    ensures ReadLine(st, line) != Ok(Meaning(st, TaskName(name)))
  {
    CaptionedLine(st, line);
  }

  lemma UnfreeTaskIsMisread(st: ReaderState, indent: string, name: string)
    requires AllTrimmed(indent) && FreeText(name) && !FreeTask(name)
    requires st.current.None? || st.current.value.name != name
    ensures ReadLine(st, Headed(indent, name)) != Ok(Meaning(st, TaskName(name)))
  {
    HeadedShape(indent, name);
    if HeaderOf(name).None? {
      CaptionNamesNoTask(st, Headed(indent, name), name);
    } else {
      TitleNamesNoTask(st, Headed(indent, name), name);
    }
  }

  /** In the task summary a neat name is read as a task exactly when it is no section title and its line
      starts with no caption, whether it holds colons or not. */
  lemma TaskNameExactly(st: ReaderState, name: string)
    requires FreeText(name) && st.section.TaskSummary?
    requires st.current.None? || st.current.value.name != name
    ensures ReadLine(st, Render(TaskName(name))) == Ok(Meaning(st, TaskName(name))) <==>
      HeaderOf(name).None? && CaptionAt(name + ":").None?
  {
    if FreeTask(name) {
      NameIsRead(st, name);
    } else {
      UnfreeTaskIsMisread(st, "  ", name);
    }
  }

  /** The key that a counter line is filed under holds no colon. */
  lemma KeysHoldNoColon(line: string)
    ensures ':' !in KeyOf(line)
  {
    var i := ColonAt(line);
    assert forall c <- line[..i] :: c != ':';
    TrimmedIsPart(line[..i]);
  }

  lemma {:induction false} LeftTrimmedIsPart(s: string)
    ensures forall c <- TrimLeft(s) :: c in s
  {
    if s != "" && IsTrimmed(s[0]) {
      LeftTrimmedIsPart(s[1..]);
    }
  }

  lemma {:induction false} RightTrimmedIsPart(s: string)
    ensures forall c <- TrimRight(s) :: c in s
  {
    if s != "" && IsTrimmed(s[|s| - 1]) {
      RightTrimmedIsPart(s[..|s| - 1]);
    }
  }

  lemma TrimmedIsPart(s: string)
    ensures forall c <- Trim(s) :: c in s
  {
    LeftTrimmedIsPart(s);
    RightTrimmedIsPart(TrimLeft(s));
  }

  /** The counter that a section fills. */
  function CountsOf(r: Response, section: Section): map<string, int> {
    match section
    case EventCounts => r.eventCounts
    case SeverityCounts => r.severityCounts
    case _ => map[]
  }

  /** Whatever the line, a counter gains no key but the one before its first colon, and none on a line that
      the reader takes for a title or a caption. */
  lemma CounterGains(st: ReaderState, raw: string, section: Section, key: string)
    requires ReadLine(st, raw).Ok? && key !in CountsOf(st.response, section)
    ensures key in CountsOf(ReadLine(st, raw).value.response, section) ==>
      && st.section == section && KeyOf(Seen(raw)) == key && ':' !in key
      && HeaderAt(Seen(raw)).None? && CaptionAt(Seen(raw)).None?
  {
    var trimmed := Seen(raw);
    KeysHoldNoColon(trimmed);
    if !IsBlank(trimmed) && HeaderAt(trimmed).None? {
      if CaptionAt(trimmed).Some? {
        CaptionedLine(st, raw);
      } else {
        ContentGains(st, StripTrailing(raw), trimmed, section, key);
      }
    }
  }

  lemma ContentGains(st: ReaderState, line: string, trimmed: string, section: Section, key: string)
    requires trimmed != "" && Content(st, line, trimmed).Ok? && key !in CountsOf(st.response, section)
    ensures key in CountsOf(Content(st, line, trimmed).value.response, section) ==>
      st.section == section && KeyOf(trimmed) == key
  {
  }

  /** In a counter's section a neat key that is not there yet is read as itself exactly when it holds no
      colon and its line starts with no caption. */
  lemma EntryExactly(st: ReaderState, key: string, n: nat)
    requires FreeText(key) && Fits(n) && (st.section.EventCounts? || st.section.SeverityCounts?)
    requires key !in CountsOf(st.response, st.section)
    ensures ReadLine(st, Render(Entry(key, n))) == Ok(Meaning(st, Entry(key, n))) <==>
      ':' !in key && CaptionAt(key + ":").None?
  {
    FreeCountIsFreeKey(key);
    if FreeKey(key) {
      FreeEntryIsRead(st, key, n);
    } else if ReadLine(st, Render(Entry(key, n))).Ok? {
      UnfreeEntryIsLost(st, key, n);
    }
  }

  lemma UnfreeEntryIsLost(st: ReaderState, key: string, n: nat)
    requires FreeText(key) && !FreeKey(key) && ReadLine(st, Render(Entry(key, n))).Ok?
    requires key !in CountsOf(st.response, st.section)
    ensures key !in CountsOf(ReadLine(st, Render(Entry(key, n))).value.response, st.section)
  {
    NumbersAreNeat(n);
    UnfreeKeyIsLost(st, key, Digits(n));
  }

  lemma UnfreeKeyIsLost(st: ReaderState, key: string, value: string)
    requires FreeText(key) && !FreeKey(key) && Neat(value) && ReadLine(st, Keyed("  ", key, value)).Ok?
    requires key !in CountsOf(st.response, st.section)
    ensures key !in CountsOf(ReadLine(st, Keyed("  ", key, value)).value.response, st.section)
  {
    LooseShape("  ", key, value);
    CounterGains(st, Keyed("  ", key, value), st.section, key);
    if ':' !in key {
      CaptionByKey(CAPTIONS, key, " " + value);
    }
  }

  /** A name that is no free task never becomes one, whatever the line. */
  lemma TaskStaysUnread(st: ReaderState, raw: string, name: string)
    requires !FreeTask(name) && name !in Filed(st) && ReadLine(st, raw).Ok?
    ensures name !in Filed(ReadLine(st, raw).value)
  {
    var trimmed := Seen(raw);
    if !IsBlank(trimmed) && HeaderAt(trimmed).None? {
      if CaptionAt(trimmed).Some? {
        CaptionedLine(st, raw);
      } else if EndsWithColon(trimmed) {
        assert trimmed == trimmed[..|trimmed| - 1] + ":";
      }
    }
  }
}
