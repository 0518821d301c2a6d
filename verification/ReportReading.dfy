/** Sequences of report lines, read back line by line, and what may be printed at all so that the reader
    can take it in. */
module ReportReading {
  import opened Common
  import opened HealthAnalyzer
  import opened LineReading
  import opened LogRecords
  import opened NameReading
  import opened PlainText
  import opened ReportLines
  import opened ReportParser
  import opened ReportPrinter
  import opened ReportWords
  import opened TextOrder

  // ---------- from text to lines ----------

  /** What the reader has taken in after these lines. */
  function Understood(st: ReaderState, lines: seq<Line>): ReaderState {
    if lines == [] then st else Meaning(Understood(st, lines[..|lines| - 1]), lines[|lines| - 1])
  }

  ghost predicate Readable(st: ReaderState, lines: seq<Line>) {
    lines == [] ||
    (var init, last := lines[..|lines| - 1], lines[|lines| - 1];
     Readable(st, init) && Writable(last) && Belongs(last, Understood(st, init).section))
  }

  /** Reading these lines takes the reader from one state to the other. */
  ghost predicate Tells(st: ReaderState, lines: seq<Line>, after: ReaderState) {
    Readable(st, lines) && Understood(st, lines) == after
  }

  lemma {:induction false} TellsConcat(a: ReaderState, x: seq<Line>, b: ReaderState, y: seq<Line>, c: ReaderState)
    requires Tells(a, x, b) && Tells(b, y, c)
    ensures Tells(a, x + y, c)
  {
    if y == [] {
      assert x + y == x;
    } else {
      var init := y[..|y| - 1];
      TellsConcat(a, x, b, init, Understood(b, init));
      assert (x + y)[..|x + y| - 1] == x + init;
    }
  }

  lemma TellsMore(a: ReaderState, x: seq<Line>, b: ReaderState, line: Line)
    requires Tells(a, x, b) && Writable(line) && Belongs(line, b.section)
    ensures Tells(a, x + [line], Meaning(b, line))
  {
    assert (x + [line])[..|x|] == x;
  }

  lemma TellsOne(st: ReaderState, line: Line)
    requires Writable(line) && Belongs(line, st.section)
    ensures Tells(st, [line], Meaning(st, line))
  {
    TellsMore(st, [], st, line);
    assert [] + [line] == [line];
  }

  lemma {:induction false} ReadConcat(st: ReaderState, a: seq<string>, b: seq<string>)
    requires ReadLines(st, a).Ok?
    ensures ReadLines(st, a + b) == ReadLines(ReadLines(st, a).value, b)
    decreases |a|
  {
    if a == [] {
      assert a + b == b;
    } else {
      assert a + b == [a[0]] + (a[1..] + b);
      ReadConcat(ReadLine(st, a[0]).value, a[1..], b);
    }
  }

  lemma ReadOne(st: ReaderState, text: string)
    ensures ReadLines(st, [text]) == ReadLine(st, text)
  {
  }

  lemma {:induction false} ReadRendered(st: ReaderState, lines: seq<Line>)
    requires Readable(st, lines)
    ensures ReadLines(st, RenderAll(lines)) == Ok(Understood(st, lines))
  {
    if lines != [] {
      var init, last := lines[..|lines| - 1], lines[|lines| - 1];
      ReadRendered(st, init);
      ReadConcat(st, RenderAll(init), [Render(last)]);
      ReadOne(Understood(st, init), Render(last));
      LineIsRead(Understood(st, init), last);
    }
  }

  lemma OneLineConcat(a: string, b: string)
    requires OneLine(a) && OneLine(b)
    ensures OneLine(a + b)
  {
  }

  lemma KeyedIsOneLine(indent: string, key: string, value: string)
    requires OneLine(indent) && OneLine(key) && OneLine(value)
    ensures OneLine(Keyed(indent, key, value))
  {
  }

  lemma HeadedIsOneLine(indent: string, title: string)
    requires OneLine(indent) && OneLine(title)
    ensures OneLine(Headed(indent, title))
  {
  }

  /** A line that may be printed, even if a task's name is then not read as such. */
  predicate Inked(line: Line) {
    Writable(line) || (line.TaskName? && FreeText(line.name))
  }

  predicate IsFigure(line: Line) {
    line.CaptionedNumber? || line.Entry? || line.MessageLine? || line.MetricLine? || line.AverageLine?
  }

  predicate IsWordLine(line: Line) {
    line.Plain? || line.SubHeading? || line.Unused?
  }

  lemma FigureIsOneLine(line: Line)
    requires Writable(line) && IsFigure(line)
    ensures OneLine(Render(line))
  {
    match line
    case CaptionedNumber(caption, n, unit) =>
      CaptionsAreKeys(caption);
      NumberText(n, unit);
      KeyedIsOneLine("", CaptionText(caption), SignedText(n) + unit);
    case Entry(key, n) => NumbersAreNeat(n); KeyedIsOneLine("  ", key, Digits(n));
    case MessageLine(key, n) => MessageKeysAreFree(key); NumbersAreNeat(n); KeyedIsOneLine("  ", MessageText(key), Digits(n));
    case MetricLine(key, value) =>
      MetricKeysAreFree(key);
      SignedIsRead(value);
      KeyedIsOneLine("    ", MetricText(key), SignedText(value));
    case AverageLine(tenths) =>
      AverageKeyIsFree();
      TenthsAreRead(tenths);
      KeyedIsOneLine("    ", AVERAGE_KEY, TenthsText(tenths));
  }

  lemma WordIsOneLine(line: Line)
    requires Writable(line) && IsWordLine(line)
    ensures OneLine(Render(line))
  {
    match line
    case Plain(word) => WordsAreKeys(word); OneLineConcat(Indent(word), WordText(word));
    case SubHeading(word) => WordsAreKeys(word); HeadedIsOneLine(Indent(word), WordText(word));
    case Unused(word, text) => WordsAreKeys(word); KeyedIsOneLine(Indent(word), WordText(word), text);
  }

  lemma RenderedIsOneLine(line: Line)
    requires Inked(line)
    ensures OneLine(Render(line))
  {
    if IsFigure(line) {
      FigureIsOneLine(line);
    } else if IsWordLine(line) {
      WordIsOneLine(line);
    } else {
      match line
      case Empty =>
      case Underline(length) => RulesAreNeat(length); OneLineConcat("", Rule(length));
      case CaptionedText(caption, text) => CaptionsAreKeys(caption); KeyedIsOneLine("", CaptionText(caption), text);
      case Heading(head) => HeadChars(head); KeyCharsAreFree(HeadText(head)); HeadedIsOneLine("", HeadText(head));
      case TaskName(name) => HeadedIsOneLine("  ", name);
      case SubEntry(task, n) => OneLineConcat("- ", task); NumbersAreNeat(n); KeyedIsOneLine("    ", "- " + task, Digits(n));
      case Bullet(text) => OneLineConcat("- ", text); OneLineConcat("  ", "- " + text);
      case WindowLine(startMs, endMs, text) =>
        WindowKey(startMs, endMs);
        KeyedIsOneLine("  ", Digits(startMs) + "-" + Digits(endMs) + " ms", text);
    }
  }

  lemma {:induction false} RenderedLines(lines: seq<Line>)
    requires forall line <- lines :: Inked(line)
    ensures forall text <- RenderAll(lines) :: OneLine(text)
  {
    if lines != [] {
      assert lines[|lines| - 1] in lines && forall line <- lines[..|lines| - 1] :: line in lines;
      RenderedLines(lines[..|lines| - 1]);
      RenderedIsOneLine(lines[|lines| - 1]);
    }
  }

  lemma {:induction false} RenderConcat(a: seq<Line>, b: seq<Line>)
    ensures RenderAll(a + b) == RenderAll(a) + RenderAll(b)
  {
    if b == [] {
      assert a + b == a;
    } else {
      assert (a + b)[..|a + b| - 1] == a + b[..|b| - 1];
      RenderConcat(a, b[..|b| - 1]);
      ConcatAssociative(RenderAll(a), RenderAll(b[..|b| - 1]), [Render(b[|b| - 1])]);
    }
  }

  /** What a report comes to, from what its lines come to. */
  function Concluded(read: Result<ReaderState, ParseError>): Result<Response, ParseError> {
    match read
    case Err(e) => Err(e)
    case Ok(st) => Ok(st.response.(taskMetrics := Filed(st)))
  }

  lemma {:induction false} ReadBlank(st: ReaderState, texts: seq<string>)
    ensures ReadLines(st, texts + [""]) == ReadLines(st, texts)
    decreases |texts|
  {
    if texts == [] {
      assert texts + [""] == [""];
      ReadOne(st, "");
    } else {
      assert texts + [""] == [texts[0]] + (texts[1..] + [""]);
      if ReadLine(st, texts[0]).Ok? {
        ReadBlank(ReadLine(st, texts[0]).value, texts[1..]);
      }
    }
  }

  /** The text of printed lines is read line by line. */
  lemma ReadText(lines: seq<Line>)
    requires forall line <- lines :: Inked(line)
    ensures ReadReport(JoinLines(RenderAll(lines))) == Concluded(ReadLines(AtStart, RenderAll(lines)))
  {
    RenderedLines(lines);
    SplitJoined(RenderAll(lines));
    ReadBlank(AtStart, RenderAll(lines));
  }

  // ---------- what may be printed ----------

  ghost predicate RegularCounter(counter: Counter<string>) {
    forall key <- counter :: FreeText(key) && Fits(counter[key])
  }

  ghost predicate RegularTasks(counter: Counter<string>) {
    forall key <- counter :: OneLine(key)
  }

  predicate RegularMetrics(m: Metrics) {
    && Fits(m.runs) && Fits(m.misses) && Fits(m.missedEvents)
    && -MAX_INT - 1 <= m.maxDurationMs <= MAX_INT
    && m.avgDurationMs >= 0.0
  }

  /** Texts have no line break and no white space at their ends, and numbers fit the reader's integers. */
  ghost predicate Regular(r: HealthReport) {
    && FreeText(r.logFile) && Fits(r.eventsLoaded) && Fits(r.observedMs)
    && (r.simulationName.Some? ==> FreeText(r.simulationName.value))
    && (r.schedulerMode.Some? ==> FreeText(r.schedulerMode.value))
    && (r.durationSeconds.Some? ==> Fits(r.durationSeconds.value))
    && RegularCounter(r.eventCounts) && RegularCounter(r.severityCounts) && RegularCounter(r.faultCounts)
    && (forall name <- r.metrics :: FreeText(name) && RegularMetrics(r.metrics[name]))
    && Fits(r.messages.sent) && Fits(r.messages.received) && Fits(r.messages.dropped)
    && Fits(r.messages.queueFull) && Fits(r.messages.faultInjected)
    && RegularTasks(r.timeoutTasks) && RegularTasks(r.recoveredTasks)
    && RegularTasks(r.failedTasks) && RegularTasks(r.skippedTasks)
    && (forall cause <- r.causes :: FreeText(cause))
  }

  /** Every task's name is read as a task. */
  ghost predicate FreeTasks(r: HealthReport) {
    forall name <- r.metrics :: FreeTask(name)
  }

  ghost predicate FreeCounter(counter: Counter<string>) {
    forall key <- counter :: FreeCount(key)
  }

  ghost predicate PrintableDetector(d: DetectorReport) {
    && FreeText(d.windowSize) && FreeText(d.overall) && FreeText(d.windowCounts) && FreeText(d.highestScore)
    && (forall driver <- d.drivers :: FreeText(driver))
    && (forall row <- d.windows :: FreeText(row.text))
  }

  // ---------- lines that change nothing ----------

  lemma {:induction false} TellsNothing(st: ReaderState, lines: seq<Line>)
    requires forall line <- lines :: Writable(line) && Belongs(line, st.section) && Meaning(st, line) == st
    ensures Tells(st, lines, st)
  {
    if lines != [] {
      var init, last := lines[..|lines| - 1], lines[|lines| - 1];
      assert last in lines && forall line <- init :: line in lines;
      TellsNothing(st, init);
    }
  }

  lemma {:induction false} SubEntriesAre(names: seq<string>, counter: Counter<string>)
    requires forall name <- names :: OneLine(name)
    ensures forall line <- SubEntries(names, counter) :: line.SubEntry? && Writable(line)
  {
    if names != [] {
      assert names[|names| - 1] in names && forall name <- names[..|names| - 1] :: name in names;
      SubEntriesAre(names[..|names| - 1], counter);
    }
  }

  lemma {:induction false} CounterLinesAre(names: seq<string>, counter: Counter<string>)
    requires forall name <- names :: FreeText(name) && Fits(At(counter, name))
    ensures forall line <- CounterLines(names, counter) :: line.Entry? && Writable(line)
  {
    if names != [] {
      assert names[|names| - 1] in names && forall name <- names[..|names| - 1] :: name in names;
      CounterLinesAre(names[..|names| - 1], counter);
    }
  }

  lemma {:induction false} WindowLinesAre(rows: seq<WindowRow>)
    requires forall row <- rows :: FreeText(row.text)
    ensures forall line <- WindowLines(rows) :: line.WindowLine? && Writable(line)
  {
    if rows != [] {
      assert rows[|rows| - 1] in rows && forall row <- rows[..|rows| - 1] :: row in rows;
      WindowLinesAre(rows[..|rows| - 1]);
    }
  }

  // ---------- counters ----------

  function Updated(m: map<string, int>, names: seq<string>, counter: Counter<string>): map<string, int> {
    if names == [] then m
    else Updated(m, names[..|names| - 1], counter)[names[|names| - 1] := At(counter, names[|names| - 1])]
  }

  function AsRead(counter: Counter<string>): map<string, int> {
    map key | key in counter :: counter[key] as int
  }

  lemma {:induction false} UpdatedMeans(m: map<string, int>, names: seq<string>, counter: Counter<string>)
    ensures forall key :: key in Updated(m, names, counter) <==> key in m || key in names
    ensures forall key <- names :: Updated(m, names, counter)[key] == At(counter, key)
  {
    if names != [] {
      UpdatedMeans(m, names[..|names| - 1], counter);
      assert names == names[..|names| - 1] + [names[|names| - 1]];
    }
  }

  lemma UpdatedByAll(counter: Counter<string>)
    ensures Updated(map[], Sorted(counter.Keys), counter) == AsRead(counter)
  {
    UpdatedMeans(map[], Sorted(counter.Keys), counter);
  }

  /** The reader with its counters of this section replaced. */
  function WithCounts(st: ReaderState, counts: map<string, int>): ReaderState {
    match st.section
    case EventCounts => st.(response := st.response.(eventCounts := counts))
    case SeverityCounts => st.(response := st.response.(severityCounts := counts))
    case _ => st
  }

  lemma EntryCounts(st: ReaderState, counts: map<string, int>, key: string, n: nat)
    ensures Meaning(WithCounts(st, counts), Entry(key, n)) == WithCounts(st, counts[key := n])
    ensures WithCounts(st, counts).section == st.section
  {
  }

  lemma {:induction false} EntriesTell(st: ReaderState, names: seq<string>, counter: Counter<string>)
    requires forall name <- names :: FreeText(name) && FreeCount(name) && Fits(At(counter, name))
    requires st.section.EventCounts? || st.section.SeverityCounts?
    ensures Tells(st, CounterLines(names, counter), WithCounts(st, Updated(CountsOf(st.response, st.section), names, counter)))
  {
    if names != [] {
      var init, last := names[..|names| - 1], names[|names| - 1];
      assert last in names && forall name <- init :: name in names;
      EntriesTell(st, init, counter);
      EntryCounts(st, Updated(CountsOf(st.response, st.section), init, counter), last, At(counter, last));
      TellsMore(st, CounterLines(init, counter), WithCounts(st, Updated(CountsOf(st.response, st.section), init, counter)),
        Entry(last, At(counter, last)));
    }
  }

  /** What a counter with its heading makes of the reader. */
  function AfterCounter(st: ReaderState, head: Head, counter: Counter<string>): ReaderState {
    WithCounts(st.(section := SectionOf(head)), AsRead(counter))
  }

  lemma CounterBodyTells(st: ReaderState, counter: Counter<string>)
    requires RegularCounter(counter) && FreeCounter(counter) && CountsOf(st.response, st.section) == map[]
    requires st.section.EventCounts? || st.section.SeverityCounts?
    ensures Tells(st,
      if counter == map[] then [Plain(NoneEntry)] else CounterLines(Sorted(counter.Keys), counter),
      WithCounts(st, AsRead(counter)))
  {
    if counter == map[] {
      TellsOne(st, Plain(NoneEntry));
      assert AsRead(counter) == map[];
    } else {
      EntriesTell(st, Sorted(counter.Keys), counter);
      UpdatedByAll(counter);
    }
  }

  lemma CounterPartTells(st: ReaderState, head: Head, counter: Counter<string>)
    requires RegularCounter(counter) && FreeCounter(counter) && CountsOf(st.response, SectionOf(head)) == map[]
    requires head.EventHead? || head.SeverityHead?
    ensures Tells(st, CounterPart(head, counter), AfterCounter(st, head, counter))
  {
    var begun := st.(section := SectionOf(head));
    var body := if counter == map[] then [Plain(NoneEntry)] else CounterLines(Sorted(counter.Keys), counter);
    TellsOne(st, Heading(head));
    CounterBodyTells(begun, counter);
    TellsConcat(st, [Heading(head)], begun, body, AfterCounter(st, head, counter));
    TellsMore(st, [Heading(head)] + body, AfterCounter(st, head, counter), Empty);
  }
}
