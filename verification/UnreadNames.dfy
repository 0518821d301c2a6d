/** Names and keys that the reader never takes in, whatever else the report holds: shown line by line, over the
    report as a row of headed blocks. */
module UnreadNames {
  import opened Common
  import opened HealthAnalyzer
  import opened LineReading
  import opened LogRecords
  import opened NameReading
  import opened PlainText
  import opened ReportLines
  import opened ReportParser
  import opened ReportPrinter
  import opened ReportReading
  import opened ReportRoundTrip
  import opened ReportWords
  import opened TextOrder

  // ---------- in any text at all ----------

  lemma {:induction false} ReadConcatErr(st: ReaderState, a: seq<string>, b: seq<string>)
    requires ReadLines(st, a).Err?
    ensures ReadLines(st, a + b) == ReadLines(st, a)
    decreases |a|
  {
    assert a + b == [a[0]] + (a[1..] + b);
    if ReadLine(st, a[0]).Ok? {
      ReadConcatErr(ReadLine(st, a[0]).value, a[1..], b);
    }
  }

  /** A task's name that is a section title, or whose line starts with a caption, is read from no text. */
  lemma {:induction false} TaskNeverRead(st: ReaderState, texts: seq<string>, name: string)
    requires !FreeTask(name) && name !in Filed(st) && ReadLines(st, texts).Ok?
    ensures name !in Filed(ReadLines(st, texts).value)
    decreases |texts|
  {
    if texts != [] {
      TaskStaysUnread(st, texts[0], name);
      TaskNeverRead(ReadLine(st, texts[0]).value, texts[1..], name);
    }
  }

  /** A key with a colon is counted from no text. */
  lemma {:induction false} ColonNeverCounted(st: ReaderState, texts: seq<string>, section: Section, key: string)
    requires ':' in key && key !in CountsOf(st.response, section) && ReadLines(st, texts).Ok?
    ensures key !in CountsOf(ReadLines(st, texts).value.response, section)
    decreases |texts|
  {
    if texts != [] {
      CounterGains(st, texts[0], section, key);
      ColonNeverCounted(ReadLine(st, texts[0]).value, texts[1..], section, key);
    }
  }

  // ---------- the report as headed blocks ----------

  datatype Block = Block(head: Head, body: seq<Line>)

  function BlockLines(block: Block): seq<Line> {
    [Heading(block.head)] + block.body
  }

  function Flat(blocks: seq<Block>): seq<Line> {
    if blocks == [] then [] else Flat(blocks[..|blocks| - 1]) + BlockLines(blocks[|blocks| - 1])
  }

  lemma FlatMore(blocks: seq<Block>, block: Block)
    ensures Flat(blocks + [block]) == Flat(blocks) + BlockLines(block)
  {
    assert (blocks + [block])[..|blocks|] == blocks;
  }

  ghost function CounterBody(counter: Counter<string>): seq<Line> {
    (if counter == map[] then [Plain(NoneEntry)] else CounterLines(Sorted(counter.Keys), counter)) + [Empty]
  }

  ghost function TaskBody(metrics: map<string, Metrics>): seq<Line> {
    (if metrics == map[] then [Plain(NoneEntry)] else AllTaskLines(Sorted(metrics.Keys), metrics)) + [Empty]
  }

  function MessageBody(m: MessageCounts): seq<Line> {
    [MessageLine(Sent, m.sent),
     MessageLine(Received, m.received),
     MessageLine(Dropped, m.dropped),
     MessageLine(QueueFullDrops, m.queueFull),
     MessageLine(FaultInjectedDrops, m.faultInjected),
     Empty]
  }

  ghost function WatchdogBody(r: HealthReport): seq<Line> {
    [Unused(WatchdogTimeouts, Digits(r.timeouts)), Unused(TaskRecoveries, Digits(r.recoveries))] +
    SubPart(TimeoutTasks, r.timeoutTasks) +
    SubPart(RecoveredTasks, r.recoveredTasks) +
    [Empty]
  }

  ghost function FailureBody(r: HealthReport): seq<Line> {
    [Unused(TaskFailures, Digits(r.failures)), Unused(TaskSkips, Digits(r.skips))] +
    SubPart(FailedTasks, r.failedTasks) +
    SubPart(SkippedTasks, r.skippedTasks) +
    [Empty]
  }

  /** The anomaly report, where there is one. */
  function ExtraLines(d: Option<DetectorReport>): seq<Line> {
    if d.Some? then DetectorLines(d.value) else []
  }

  ghost function CountBlocks(r: HealthReport): seq<Block> {
    [Block(EventHead, CounterBody(r.eventCounts)), Block(SeverityHead, CounterBody(r.severityCounts))]
  }

  ghost function OtherBlocks(r: HealthReport, d: Option<DetectorReport>): seq<Block> {
    [Block(TaskHead, TaskBody(r.metrics)),
     Block(MessageHead, MessageBody(r.messages)),
     Block(FaultHead, CounterBody(r.faultCounts)),
     Block(WatchdogHead, WatchdogBody(r)),
     Block(FailureHead, FailureBody(r)),
     Block(CauseHead, Bullets(r.causes) + ExtraLines(d))]
  }

  lemma Listed<T>(a: T, b: T)
    ensures [] + [a] == [a] && [a] + [b] == [a, b]
  {
  }

  lemma ListedSix<T>(a: T, b: T, c: T, d: T, e: T, f: T)
    ensures [a, b] + [c] + [d] + [e] + [f] == [a, b, c, d, e, f]
  {
  }

  lemma FlatTwo(a: Block, b: Block)
    ensures Flat([a, b]) == BlockLines(a) + BlockLines(b)
  {
    FlatMore([], a);
    FlatMore([a], b);
    Listed(a, b);
    NothingBefore(BlockLines(a));
  }

  lemma NothingBefore<T>(s: seq<T>)
    ensures [] + s == s
  {
  }

  lemma FlatSix(a: Block, b: Block, c: Block, d: Block, e: Block, f: Block)
    ensures Flat([a, b, c, d, e, f]) ==
      BlockLines(a) + BlockLines(b) + BlockLines(c) + BlockLines(d) + BlockLines(e) + BlockLines(f)
  {
    FlatTwo(a, b);
    FlatMore([a, b], c);
    FlatMore([a, b] + [c], d);
    FlatMore([a, b] + [c] + [d], e);
    FlatMore([a, b] + [c] + [d] + [e], f);
    ListedSix(a, b, c, d, e, f);
  }

  lemma CounterBlock(head: Head, counter: Counter<string>)
    ensures BlockLines(Block(head, CounterBody(counter))) == CounterPart(head, counter)
  {
    var body := if counter == map[] then [Plain(NoneEntry)] else CounterLines(Sorted(counter.Keys), counter);
    ConcatAssociative([Heading(head)], body, [Empty]);
  }

  lemma TaskBlock(metrics: map<string, Metrics>)
    ensures BlockLines(Block(TaskHead, TaskBody(metrics))) == TaskPart(metrics)
  {
    var body := if metrics == map[] then [Plain(NoneEntry)] else AllTaskLines(Sorted(metrics.Keys), metrics);
    ConcatAssociative([Heading(TaskHead)], body, [Empty]);
  }

  lemma HeadedTriple(head: Line, a: Line, b: Line, x: seq<Line>, y: seq<Line>)
    ensures [head] + ([a, b] + x + y + [Empty]) == [head, a, b] + x + y + [Empty]
  {
  }

  lemma SummaryBlocks(r: HealthReport)
    ensures BlockLines(Block(WatchdogHead, WatchdogBody(r))) == WatchdogPart(r)
    ensures BlockLines(Block(FailureHead, FailureBody(r))) == FailurePart(r)
  {
    HeadedTriple(Heading(WatchdogHead), Unused(WatchdogTimeouts, Digits(r.timeouts)), Unused(TaskRecoveries, Digits(r.recoveries)),
      SubPart(TimeoutTasks, r.timeoutTasks), SubPart(RecoveredTasks, r.recoveredTasks));
    HeadedTriple(Heading(FailureHead), Unused(TaskFailures, Digits(r.failures)), Unused(TaskSkips, Digits(r.skips)),
      SubPart(FailedTasks, r.failedTasks), SubPart(SkippedTasks, r.skippedTasks));
  }

  lemma ReportShape<T>(o: seq<T>, es: seq<T>, t: seq<T>, m: seq<T>, f: seq<T>, w: seq<T>, u: seq<T>, c: seq<T>, x: seq<T>)
    ensures (o + es + t) + (m + (f + w + u) + c) + x == o + es + (t + m + f + w + u + (c + x))
  {
  }

  lemma CauseBlock(causes: seq<string>, extra: seq<Line>)
    ensures BlockLines(Block(CauseHead, Bullets(causes) + extra)) == CausePart(causes) + extra
  {
    ConcatAssociative([Heading(CauseHead)], Bullets(causes), extra);
  }

  lemma ReportInBlocks(r: HealthReport, d: Option<DetectorReport>)
    ensures HealthLines(r) + ExtraLines(d) == OpeningLines(r) + Flat(CountBlocks(r)) + Flat(OtherBlocks(r, d))
  {
    var blocks := OtherBlocks(r, d);
    FlatTwo(CountBlocks(r)[0], CountBlocks(r)[1]);
    FlatSix(blocks[0], blocks[1], blocks[2], blocks[3], blocks[4], blocks[5]);
    CounterBlock(EventHead, r.eventCounts);
    CounterBlock(SeverityHead, r.severityCounts);
    TaskBlock(r.metrics);
    assert BlockLines(blocks[1]) == MessagePart(r.messages);
    CounterBlock(FaultHead, r.faultCounts);
    SummaryBlocks(r);
    CauseBlock(r.causes, ExtraLines(d));
    ReportShape(OpeningLines(r), CountLines(r), TaskPart(r.metrics), MessagePart(r.messages),
      CounterPart(FaultHead, r.faultCounts), WatchdogPart(r), FailurePart(r), CausePart(r.causes), ExtraLines(d));
  }

  // ---------- lines that open no section ----------

  /** A printed line that is no heading. */
  predicate Steady(line: Line) {
    Inked(line) && !line.Heading?
  }

  /** Printed lines without headings, whose tasks are among these. */
  ghost predicate Bears(lines: seq<Line>, names: set<string>) {
    forall line <- lines :: Steady(line) && (line.TaskName? ==> line.name in names)
  }

  ghost predicate BlocksBear(blocks: seq<Block>, names: set<string>) {
    forall block <- blocks :: Bears(block.body, names)
  }

  lemma CounterBears(counter: Counter<string>)
    requires RegularCounter(counter)
    ensures Bears(CounterBody(counter), {})
  {
    CounterLinesAre(Sorted(counter.Keys), counter);
  }

  lemma {:induction false} TaskLinesBear(names: seq<string>, metrics: map<string, Metrics>)
    requires forall name <- names :: name in metrics && FreeText(name) && RegularMetrics(metrics[name])
    ensures Bears(AllTaskLines(names, metrics), metrics.Keys)
  {
    if names != [] {
      var last := names[|names| - 1];
      assert last in names && forall name <- names[..|names| - 1] :: name in names;
      TaskLinesBear(names[..|names| - 1], metrics);
      OneTaskBears(last, metrics[last], metrics.Keys);
    }
  }

  lemma OneTaskBears(name: string, m: Metrics, names: set<string>)
    requires name in names && FreeText(name) && RegularMetrics(m)
    ensures Bears(TaskLines(name, m), names)
  {
  }

  lemma TasksBear(metrics: map<string, Metrics>)
    requires forall name <- metrics :: FreeText(name) && RegularMetrics(metrics[name])
    ensures Bears(TaskBody(metrics), metrics.Keys)
  {
    TaskLinesBear(Sorted(metrics.Keys), metrics);
  }

  lemma SkippableBears(first: seq<Line>, a: seq<Line>, b: seq<Line>)
    requires Skippable(first) && Skippable(a) && Skippable(b)
    ensures Bears(first + a + b + [Empty], {})
  {
    assert Skippable(first + a + b + [Empty]);
  }

  lemma SummariesBear(r: HealthReport)
    requires Regular(r)
    ensures Bears(WatchdogBody(r), {}) && Bears(FailureBody(r), {})
  {
    SubPartIsSkippable(TimeoutTasks, r.timeoutTasks);
    SubPartIsSkippable(RecoveredTasks, r.recoveredTasks);
    SubPartIsSkippable(FailedTasks, r.failedTasks);
    SubPartIsSkippable(SkippedTasks, r.skippedTasks);
    FiguresAreSkippable(WatchdogTimeouts, r.timeouts, TaskRecoveries, r.recoveries);
    FiguresAreSkippable(TaskFailures, r.failures, TaskSkips, r.skips);
    SkippableBears([Unused(WatchdogTimeouts, Digits(r.timeouts)), Unused(TaskRecoveries, Digits(r.recoveries))],
      SubPart(TimeoutTasks, r.timeoutTasks), SubPart(RecoveredTasks, r.recoveredTasks));
    SkippableBears([Unused(TaskFailures, Digits(r.failures)), Unused(TaskSkips, Digits(r.skips))],
      SubPart(FailedTasks, r.failedTasks), SubPart(SkippedTasks, r.skippedTasks));
  }

  lemma {:induction false} BulletsBear(texts: seq<string>)
    requires forall text <- texts :: FreeText(text)
    ensures Bears(Bullets(texts), {})
  {
    if texts != [] {
      assert texts[|texts| - 1] in texts && forall text <- texts[..|texts| - 1] :: text in texts;
      BulletsBear(texts[..|texts| - 1]);
    }
  }

  lemma DetectorTitleBears(d: DetectorReport)
    requires PrintableDetector(d)
    ensures Bears(DetectorTitle(d), {}) && Bears([Empty, SubHeading(WindowSummary)], {})
  {
  }

  lemma DetectorBears(d: DetectorReport)
    requires PrintableDetector(d)
    ensures Bears(DetectorLines(d), {})
  {
    var title, bullets, between := DetectorTitle(d), Bullets(DriverTexts(d.drivers)), [Empty, SubHeading(WindowSummary)];
    NoneIsFree();
    DetectorTitleBears(d);
    BulletsBear(DriverTexts(d.drivers));
    WindowLinesAre(d.windows);
    BearsConcat(title, bullets, {});
    BearsConcat(title + bullets, between, {});
    BearsConcat(title + bullets + between, WindowLines(d.windows), {});
  }

  lemma TitleBears(r: HealthReport)
    requires Regular(r)
    ensures Bears(TitlePart(r), {})
  {
    HealthTextIsFree(r.status);
  }

  lemma OptionsBear(caption: Caption, text: Option<string>, other: Caption, n: Option<int>)
    requires TextCaption(caption) && (text.Some? ==> FreeText(text.value))
    requires !TextCaption(other) && (n.Some? ==> ReportLines.Fits(n.value))
    ensures Bears(OptionalText(caption, text), {}) && Bears(OptionalNumber(other, n, " seconds"), {})
  {
  }

  lemma BearsConcat(a: seq<Line>, b: seq<Line>, names: set<string>)
    requires Bears(a, names) && Bears(b, names)
    ensures Bears(a + b, names)
  {
  }

  lemma OpeningBears(r: HealthReport)
    requires Regular(r)
    ensures Bears(OpeningLines(r), {})
  {
    var p0, p1, p2 := TitlePart(r), OptionalText(Simulation, r.simulationName), OptionalText(SchedulerMode, r.schedulerMode);
    var p3, p4 := OptionalNumber(ConfiguredDuration, r.durationSeconds, " seconds"),
      [CaptionedNumber(ObservedDuration, r.observedMs, " ms"), Empty];
    TitleBears(r);
    OptionsBear(Simulation, r.simulationName, ConfiguredDuration, r.durationSeconds);
    OptionsBear(SchedulerMode, r.schedulerMode, ConfiguredDuration, r.durationSeconds);
    BearsConcat(p0, p1, {});
    BearsConcat(p0 + p1, p2, {});
    BearsConcat(p0 + p1 + p2, p3, {});
    BearsConcat(p0 + p1 + p2 + p3, p4, {});
  }

  lemma SixBear(a: Block, b: Block, c: Block, d: Block, e: Block, f: Block, names: set<string>)
    requires Bears(a.body, names) && Bears(b.body, {}) && Bears(c.body, {})
    requires Bears(d.body, {}) && Bears(e.body, {}) && Bears(f.body, {})
    ensures BlocksBear([a, b, c, d, e, f], names)
  {
  }

  lemma OthersBear(r: HealthReport, d: Option<DetectorReport>)
    requires Regular(r) && (d.Some? ==> PrintableDetector(d.value))
    ensures BlocksBear(OtherBlocks(r, d), r.metrics.Keys)
  {
    var blocks := OtherBlocks(r, d);
    TasksBear(r.metrics);
    assert Bears(MessageBody(r.messages), {});
    CounterBears(r.faultCounts);
    SummariesBear(r);
    CausesBear(r.causes, d);
    SixBear(blocks[0], blocks[1], blocks[2], blocks[3], blocks[4], blocks[5], r.metrics.Keys);
  }

  lemma CausesBear(causes: seq<string>, d: Option<DetectorReport>)
    requires (forall cause <- causes :: FreeText(cause)) && (d.Some? ==> PrintableDetector(d.value))
    ensures Bears(Bullets(causes) + ExtraLines(d), {})
  {
    BulletsBear(causes);
    if d.Some? {
      DetectorBears(d.value);
    }
  }

  lemma {:induction false} FlatInked(blocks: seq<Block>, names: set<string>)
    requires BlocksBear(blocks, names)
    ensures forall line <- Flat(blocks) :: Inked(line)
  {
    if blocks != [] {
      assert blocks[|blocks| - 1] in blocks && forall block <- blocks[..|blocks| - 1] :: block in blocks;
      FlatInked(blocks[..|blocks| - 1], names);
    }
  }

  /** Every line of a regular report may be printed. */
  lemma ReportIsInked(r: HealthReport, d: Option<DetectorReport>)
    requires Regular(r) && (d.Some? ==> PrintableDetector(d.value))
    ensures forall line <- HealthLines(r) + ExtraLines(d) :: Inked(line)
  {
    ReportInBlocks(r, d);
    OpeningBears(r);
    CounterBears(r.eventCounts);
    CounterBears(r.severityCounts);
    FlatInked(CountBlocks(r), {});
    OthersBear(r, d);
    FlatInked(OtherBlocks(r, d), r.metrics.Keys);
  }

  // ---------- the section a line stands in ----------

  lemma KeyedIsNoHeader(indent: string, key: string, value: string)
    requires AllTrimmed(indent) && Neat(key) && Neat(value)
    ensures HeaderAt(Seen(Keyed(indent, key, value))).None?
  {
    LooseShape(indent, key, value);
  }

  lemma CaptionedFigureIsNoHeader(caption: Caption, n: int, unit: string)
    requires ReportLines.Fits(n) && IsUnit(unit)
    ensures HeaderAt(Seen(Render(CaptionedNumber(caption, n, unit)))).None?
  {
    CaptionsAreNeat(caption);
    NumberText(n, unit);
    KeyedIsNoHeader("", CaptionText(caption), SignedText(n) + unit);
  }

  lemma EntryIsNoHeader(key: string, n: nat)
    requires FreeText(key)
    ensures HeaderAt(Seen(Render(Entry(key, n)))).None?
  {
    NumbersAreNeat(n);
    KeyedIsNoHeader("  ", key, Digits(n));
  }

  lemma MessageIsNoHeader(key: MessageKey, n: nat)
    ensures HeaderAt(Seen(Render(MessageLine(key, n)))).None?
  {
    MessageChars(key);
    NumbersAreNeat(n);
    KeyedIsNoHeader("  ", MessageText(key), Digits(n));
  }

  lemma MetricIsNoHeader(key: MetricKey, value: int)
    requires -MAX_INT - 1 <= value <= MAX_INT
    ensures HeaderAt(Seen(Render(MetricLine(key, value)))).None?
  {
    MetricChars(key);
    SignedIsRead(value);
    KeyedIsNoHeader("    ", MetricText(key), SignedText(value));
  }

  lemma AverageIsNoHeader(tenths: nat)
    ensures HeaderAt(Seen(Render(AverageLine(tenths)))).None?
  {
    TenthsAreRead(tenths);
    KeyedIsNoHeader("    ", AVERAGE_KEY, TenthsText(tenths));
  }

  lemma FigureIsNoHeader(line: Line)
    requires Steady(line) && IsFigure(line)
    ensures HeaderAt(Seen(Render(line))).None?
  {
    match line
    case CaptionedNumber(caption, n, unit) => CaptionedFigureIsNoHeader(caption, n, unit);
    case Entry(key, n) => EntryIsNoHeader(key, n);
    case MessageLine(key, n) => MessageIsNoHeader(key, n);
    case MetricLine(key, value) => MetricIsNoHeader(key, value);
    case AverageLine(tenths) => AverageIsNoHeader(tenths);
  }

  lemma PlainIsNoHeader(word: Word)
    ensures HeaderAt(Seen(Render(Plain(word)))).None?
  {
    WordsAreNeat(word);
    WordsAreKeys(word);
    PlainShape(Indent(word), WordText(word));
  }

  lemma HeadedIsNoHeader(indent: string, title: string)
    requires AllTrimmed(indent) && Neat(title) && HeaderOf(title).None?
    ensures HeaderAt(Seen(Headed(indent, title))).None?
  {
    HeadedShape(indent, title);
  }

  lemma IndentsAreTrimmed(word: Word)
    ensures AllTrimmed(Indent(word)) && AllTrimmed("  ")
  {
  }

  lemma WordIsNoTitle(word: Word)
    ensures HeaderOf(WordText(word)).None?
  {
    WordsAreNoHeads(HEADS, word);
  }

  lemma SubHeadingIsNoHeader(word: Word)
    ensures HeaderAt(Seen(Render(SubHeading(word)))).None?
  {
    IndentsAreTrimmed(word);
    WordsAreNeat(word);
    WordIsNoTitle(word);
    HeadedIsNoHeader(Indent(word), WordText(word));
  }

  lemma UnusedIsNoHeader(word: Word, text: string)
    requires FreeText(text)
    ensures HeaderAt(Seen(Render(Unused(word, text)))).None?
  {
    IndentsAreTrimmed(word);
    WordsAreNeat(word);
    KeyedIsNoHeader(Indent(word), WordText(word), text);
  }

  lemma WordIsNoHeader(line: Line)
    requires Steady(line) && IsWordLine(line)
    ensures HeaderAt(Seen(Render(line))).None?
  {
    match line
    case Plain(word) => PlainIsNoHeader(word);
    case SubHeading(word) => SubHeadingIsNoHeader(word);
    case Unused(word, text) => UnusedIsNoHeader(word, text);
  }

  lemma DashIsNoHeader(line: Line)
    requires Steady(line) && (line.SubEntry? || line.Bullet?)
    ensures HeaderAt(Seen(Render(line))).None?
  {
    match line
    case SubEntry(task, n) =>
      NumbersAreNeat(n);
      assert ("- " + task)[0] == '-';
      DashedIsNoHeader("- " + task, Digits(n));
    case Bullet(text) => BulletShape(text);
  }

  /** Only headings, and tasks named like them, are headers to the reader. */
  lemma SteadyIsNoHeader(line: Line)
    requires Steady(line) && (line.TaskName? ==> HeaderOf(line.name).None?)
    ensures HeaderAt(Seen(Render(line))).None?
  {
    if IsFigure(line) {
      FigureIsNoHeader(line);
    } else if IsWordLine(line) {
      WordIsNoHeader(line);
    } else if line.SubEntry? || line.Bullet? {
      DashIsNoHeader(line);
    } else {
      match line
      case Empty =>
      case Underline(length) => RulesAreNeat(length); PlainShape("", Rule(length));
      case CaptionedText(caption, text) => CaptionsAreNeat(caption); KeyedIsNoHeader("", CaptionText(caption), text);
      case TaskName(name) => HeadedShape("  ", name);
      case WindowLine(startMs, endMs, text) =>
        WindowKey(startMs, endMs);
        KeyedIsNoHeader("  ", Digits(startMs) + "-" + Digits(endMs) + " ms", text);
    }
  }

  lemma DashedIsNoHeader(key: string, value: string)
    requires key != "" && key[0] == '-' && Neat(value)
    ensures HeaderAt(Seen(Keyed("    ", key, value))).None?
  {
    DashedIsNeat(key, value);
    IndentedLine("    ", Body(key, value));
  }

  lemma SectionStays(st: ReaderState, raw: string)
    requires HeaderAt(Seen(raw)).None? && ReadLine(st, raw).Ok?
    ensures ReadLine(st, raw).value.section == st.section
  {
    if !IsBlank(Seen(raw)) {
      if CaptionAt(Seen(raw)).Some? {
        CaptionedLine(st, raw);
      } else {
        ContentStays(st, StripTrailing(raw), Seen(raw));
      }
    }
  }

  lemma ContentStays(st: ReaderState, line: string, trimmed: string)
    requires trimmed != "" && Content(st, line, trimmed).Ok?
    ensures Content(st, line, trimmed).value.section == st.section
  {
  }

  // ---------- keys like captions ----------

  /** A line of a counter that files under no key like a caption. */
  predicate Shut(line: Line) {
    line.Empty? || line.Plain? || (line.Entry? && FreeText(line.key) && ':' !in line.key)
  }

  lemma KeyGainsNothing(st: ReaderState, indent: string, own: string, value: string, section: Section, key: string)
    requires AllTrimmed(indent) && Neat(own) && ':' !in own && Neat(value)
    requires FirstKey(CAPTIONS, key).Some? && key !in CountsOf(st.response, section)
    requires ReadLine(st, Keyed(indent, own, value)).Ok?
    ensures key !in CountsOf(ReadLine(st, Keyed(indent, own, value)).value.response, section)
  {
    KeyedShape(indent, own, value);
    CounterGains(st, Keyed(indent, own, value), section, key);
  }

  lemma EntryGainsNothing(st: ReaderState, raw: string, own: string, value: string, section: Section, key: string)
    requires raw == Keyed("  ", own, value) && Neat(own) && ':' !in own && Neat(value)
    requires FirstKey(CAPTIONS, key).Some? && key !in CountsOf(st.response, section) && ReadLine(st, raw).Ok?
    ensures key !in CountsOf(ReadLine(st, raw).value.response, section)
  {
    IndentsAreTrimmed(NoneEntry);
    KeyGainsNothing(st, "  ", own, value, section, key);
  }

  lemma ShutGainsNothing(st: ReaderState, line: Line, section: Section, key: string)
    requires Shut(line) && FirstKey(CAPTIONS, key).Some? && key !in CountsOf(st.response, section)
    requires ReadLine(st, Render(line)).Ok?
    ensures key !in CountsOf(ReadLine(st, Render(line)).value.response, section)
  {
    match line
    case Empty =>
    case Plain(word) => PlainIsRead(st, word);
    case Entry(own, n) =>
      NumbersAreNeat(n);
      EntryGainsNothing(st, Render(line), own, Digits(n), section, key);
  }

  /** Lines that open no section, and that stand in another section or file under no caption's key. */
  ghost predicate Spares(section: Section, lines: seq<Line>, counted: Section) {
    forall line <- lines ::
      Steady(line) && (line.TaskName? ==> HeaderOf(line.name).None?) && (section == counted ==> Shut(line))
  }

  lemma {:induction false} LinesHoldOut(st: ReaderState, lines: seq<Line>, counted: Section, key: string)
    requires Spares(st.section, lines, counted) && FirstKey(CAPTIONS, key).Some?
    requires key !in CountsOf(st.response, counted) && ReadLines(st, RenderAll(lines)).Ok?
    ensures
      var after := ReadLines(st, RenderAll(lines)).value;
      after.section == st.section && key !in CountsOf(after.response, counted)
  {
    if lines != [] {
      var init, last := lines[..|lines| - 1], lines[|lines| - 1];
      assert last in lines && forall line <- init :: line in lines;
      OkPrefix(st, RenderAll(init), [Render(last)]);
      LinesHoldOut(st, init, counted, key);
      var before := ReadLines(st, RenderAll(init)).value;
      ReadOne(before, Render(last));
      SteadyIsNoHeader(last);
      SectionStays(before, Render(last));
      if st.section == counted {
        ShutGainsNothing(before, last, counted, key);
      } else {
        CounterGains(before, Render(last), counted, key);
      }
    }
  }

  lemma OkPrefix(st: ReaderState, a: seq<string>, b: seq<string>)
    requires ReadLines(st, a + b).Ok?
    ensures ReadLines(st, a).Ok? && ReadLines(st, a + b) == ReadLines(ReadLines(st, a).value, b)
  {
    if ReadLines(st, a).Err? {
      ReadConcatErr(st, a, b);
    } else {
      ReadConcat(st, a, b);
    }
  }

  ghost predicate BlocksSpare(blocks: seq<Block>, counted: Section) {
    forall block <- blocks :: Spares(SectionOf(block.head), block.body, counted)
  }

  lemma BlockHoldsOut(st: ReaderState, block: Block, counted: Section, key: string)
    requires Spares(SectionOf(block.head), block.body, counted) && FirstKey(CAPTIONS, key).Some?
    requires key !in CountsOf(st.response, counted) && ReadLines(st, RenderAll(BlockLines(block))).Ok?
    ensures key !in CountsOf(ReadLines(st, RenderAll(BlockLines(block))).value.response, counted)
  {
    RenderConcat([Heading(block.head)], block.body);
    assert RenderAll([Heading(block.head)]) == [Render(Heading(block.head))];
    OkPrefix(st, [Render(Heading(block.head))], RenderAll(block.body));
    ReadOne(st, Render(Heading(block.head)));
    HeadIsRead(st, block.head);
    LinesHoldOut(st.(section := SectionOf(block.head)), block.body, counted, key);
  }

  lemma {:induction false} BlocksHoldOut(st: ReaderState, blocks: seq<Block>, counted: Section, key: string)
    requires BlocksSpare(blocks, counted) && FirstKey(CAPTIONS, key).Some?
    requires key !in CountsOf(st.response, counted) && ReadLines(st, RenderAll(Flat(blocks))).Ok?
    ensures key !in CountsOf(ReadLines(st, RenderAll(Flat(blocks))).value.response, counted)
  {
    if blocks != [] {
      var init, last := blocks[..|blocks| - 1], blocks[|blocks| - 1];
      assert last in blocks && forall block <- init :: block in blocks;
      RenderConcat(Flat(init), BlockLines(last));
      OkPrefix(st, RenderAll(Flat(init)), RenderAll(BlockLines(last)));
      BlocksHoldOut(st, init, counted, key);
      BlockHoldsOut(ReadLines(st, RenderAll(Flat(init))).value, last, counted, key);
    }
  }

  /** The counter that a report prints under this section's heading. */
  function CounterOf(r: HealthReport, section: Section): Counter<string> {
    match section
    case EventCounts => r.eventCounts
    case SeverityCounts => r.severityCounts
    case _ => map[]
  }

  ghost predicate NoColons(counter: Counter<string>) {
    forall key <- counter :: ':' !in key
  }

  lemma CounterBodyShut(counter: Counter<string>)
    requires RegularCounter(counter) && NoColons(counter)
    ensures forall line <- CounterBody(counter) :: Shut(line)
  {
    EntriesShut(Sorted(counter.Keys), counter);
  }

  lemma {:induction false} EntriesShut(names: seq<string>, counter: Counter<string>)
    requires forall name <- names :: FreeText(name) && ':' !in name
    ensures forall line <- CounterLines(names, counter) :: Shut(line)
  {
    if names != [] {
      assert names[|names| - 1] in names && forall name <- names[..|names| - 1] :: name in names;
      EntriesShut(names[..|names| - 1], counter);
    }
  }

  lemma CountBlocksSpare(r: HealthReport, counted: Section)
    requires Regular(r) && (counted.EventCounts? || counted.SeverityCounts?) && NoColons(CounterOf(r, counted))
    ensures BlocksSpare(CountBlocks(r), counted)
  {
    CounterBears(r.eventCounts);
    CounterBears(r.severityCounts);
    CounterBodyShut(CounterOf(r, counted));
  }

  lemma OtherBlocksSpare(r: HealthReport, d: Option<DetectorReport>, counted: Section)
    requires Regular(r) && FreeTasks(r) && (d.Some? ==> PrintableDetector(d.value))
    requires counted.EventCounts? || counted.SeverityCounts?
    ensures BlocksSpare(OtherBlocks(r, d), counted)
  {
    OthersBear(r, d);
    forall block <- OtherBlocks(r, d) ensures Spares(SectionOf(block.head), block.body, counted) {
      BearsSpares(SectionOf(block.head), block.body, r.metrics.Keys, counted);
    }
  }

  lemma BearsSpares(section: Section, lines: seq<Line>, names: set<string>, counted: Section)
    requires Bears(lines, names) && section != counted && forall name <- names :: HeaderOf(name).None?
    ensures Spares(section, lines, counted)
  {
  }

  /** A counter's key like a caption is not counted, in a report whose tasks are all read and whose keys in
      that counter hold no colons. */
  lemma CaptionNeverCounted(r: HealthReport, d: Option<DetectorReport>, counted: Section, key: string)
    requires Regular(r) && FreeTasks(r) && (d.Some? ==> PrintableDetector(d.value))
    requires (counted.EventCounts? || counted.SeverityCounts?) && NoColons(CounterOf(r, counted))
    requires FirstKey(CAPTIONS, key).Some?
    requires ReadLines(AtStart, RenderAll(HealthLines(r) + ExtraLines(d))).Ok?
    ensures key !in CountsOf(ReadLines(AtStart, RenderAll(HealthLines(r) + ExtraLines(d))).value.response, counted)
  {
    var opening, counts, others := OpeningLines(r), Flat(CountBlocks(r)), Flat(OtherBlocks(r, d));
    ReportInBlocks(r, d);
    RenderConcat(opening + counts, others);
    RenderConcat(opening, counts);
    OkPrefix(AtStart, RenderAll(opening) + RenderAll(counts), RenderAll(others));
    OkPrefix(AtStart, RenderAll(opening), RenderAll(counts));
    OpeningBears(r);
    BearsSpares(NoSection, opening, {}, counted);
    LinesHoldOut(AtStart, opening, counted, key);
    CountBlocksSpare(r, counted);
    BlocksHoldOut(ReadLines(AtStart, RenderAll(opening)).value, CountBlocks(r), counted, key);
    OtherBlocksSpare(r, d, counted);
    BlocksHoldOut(ReadLines(AtStart, RenderAll(opening) + RenderAll(counts)).value, OtherBlocks(r, d), counted, key);
  }
}
