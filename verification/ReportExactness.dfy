/** Exactly when parsing undoes printing: for regular reports, with and without the anomaly report
    behind them. */
module ReportExactness {
  import opened Common
  import opened HealthAnalyzer
  import opened LineReading
  import opened LogRecords
  import opened NameReading
  import opened PlainText
  import opened ReportLines
  import opened ReportParser
  import opened ReportPrinter
  import opened ReportReading
  import opened ReportRoundTrip
  import opened ReportWords
  import opened TextOrder
  import opened UnreadNames

  // ---------- the fault counter, whose section the reader skips ----------

  /** What the lines of a skipped counter make of the response: nothing, except where they start with a caption. */
  function Overwritten(r: Response, names: seq<string>, counter: Counter<string>): Result<Response, ParseError> {
    if names == [] then Ok(r)
    else
      match Overwritten(r, names[..|names| - 1], counter)
      case Err(e) => Err(e)
      case Ok(before) => Spoke(before, FaultBody(names[|names| - 1], counter))
  }

  function FaultBody(name: string, counter: Counter<string>): string {
    Body(name, Digits(At(counter, name)))
  }

  function Spoke(r: Response, body: string): Result<Response, ParseError> {
    match CaptionAt(body)
    case None => Ok(r)
    case Some(caption) => WithCaption(r, caption, body)
  }

  lemma SkippedLineIsRead(st: ReaderState, key: string, n: nat)
    requires FreeText(key) && st.section.OtherSection?
    ensures ReadLine(st, Render(Entry(key, n))) ==
      match Spoke(st.response, Body(key, Digits(n)))
      case Err(e) => Err(e)
      case Ok(response) => Ok(st.(response := response))
  {
    var line, body := Render(Entry(key, n)), Body(key, Digits(n));
    NumbersAreNeat(n);
    LooseShape("  ", key, Digits(n));
    if CaptionAt(body).Some? {
      CaptionedLine(st, line);
    } else {
      QuietEntryIsRead(st, key, n);
    }
  }

  /** The state with this response, or the error. */
  function Carried(st: ReaderState, r: Result<Response, ParseError>): Result<ReaderState, ParseError> {
    match r
    case Err(e) => Err(e)
    case Ok(response) => Ok(st.(response := response))
  }

  lemma {:induction false} SkippedLinesAreRead(st: ReaderState, names: seq<string>, counter: Counter<string>)
    requires st.section.OtherSection? && forall name <- names :: FreeText(name)
    ensures ReadLines(st, RenderAll(CounterLines(names, counter))) == Carried(st, Overwritten(st.response, names, counter))
  {
    if names != [] {
      var init, last := names[..|names| - 1], names[|names| - 1];
      assert last in names && forall name <- init :: name in names;
      SkippedLinesAreRead(st, init, counter);
      var earlier, text := RenderAll(CounterLines(init, counter)), Render(Entry(last, At(counter, last)));
      match Overwritten(st.response, init, counter)
      case Err(_) => ReadConcatErr(st, earlier, [text]);
      case Ok(before) =>
        ReadConcat(st, earlier, [text]);
        ReadOne(st.(response := before), text);
        SkippedLineIsRead(st.(response := before), last, At(counter, last));
    }
  }

  /** The captions of one response in front of the rest of another. */
  function Merge(captions: Response, rest: Response): Response {
    rest.(
      runtimeHealth := captions.runtimeHealth,
      eventsLoaded := captions.eventsLoaded,
      simulationName := captions.simulationName,
      schedulerMode := captions.schedulerMode,
      durationSeconds := captions.durationSeconds,
      observedDurationMs := captions.observedDurationMs)
  }

  function Merged(r: Result<Response, ParseError>, rest: Response): Result<Response, ParseError> {
    match r
    case Err(e) => Err(e)
    case Ok(captions) => Ok(Merge(captions, rest))
  }

  lemma SpokeMerges(captions: Response, rest: Response, body: string)
    ensures Spoke(Merge(captions, rest), body) == Merged(Spoke(captions, body), rest)
  {
  }

  lemma SpokeKeeps(r: Response, body: string)
    requires Spoke(r, body).Ok?
    ensures Merge(Spoke(r, body).value, r) == Spoke(r, body).value
  {
  }

  /** Captioned lines look at captions only. */
  lemma {:induction false} OverwrittenMerges(
    captions: Response, rest: Response, names: seq<string>, counter: Counter<string>)
    ensures Overwritten(Merge(captions, rest), names, counter) == Merged(Overwritten(captions, names, counter), rest)
  {
    if names != [] {
      var init := names[..|names| - 1];
      OverwrittenMerges(captions, rest, init, counter);
      if Overwritten(captions, init, counter).Ok? {
        SpokeMerges(Overwritten(captions, init, counter).value, rest, FaultBody(names[|names| - 1], counter));
      }
    }
  }

  /** They change captions only. */
  lemma {:induction false} OnlyCaptionsOverwritten(r: Response, names: seq<string>, counter: Counter<string>)
    requires Overwritten(r, names, counter).Ok?
    ensures Merge(Overwritten(r, names, counter).value, r) == Overwritten(r, names, counter).value
  {
    if names != [] {
      var init := names[..|names| - 1];
      OnlyCaptionsOverwritten(r, init, counter);
      SpokeKeeps(Overwritten(r, init, counter).value, FaultBody(names[|names| - 1], counter));
    }
  }

  // ---------- which faults are harmless ----------

  datatype CaptionValue = Words(text: Option<string>) | Figure(n: Option<int>)

  function ValueOf(r: Response, caption: Caption): CaptionValue {
    match caption
    case EventsLoaded => Figure(r.eventsLoaded)
    case RuntimeStatus => Words(r.runtimeHealth)
    case Simulation => Words(r.simulationName)
    case SchedulerMode => Words(r.schedulerMode)
    case ConfiguredDuration => Figure(r.durationSeconds)
    case ObservedDuration => Figure(r.observedDurationMs)
  }

  /** What a caption's value text stands for; a number too large for the reader stands for nothing. */
  function Meant(caption: Caption, text: string): CaptionValue {
    if TextCaption(caption) then Words(Some(text))
    else
      match FirstInteger(text)
      case Err(_) => Figure(None)
      case Ok(n) => Figure(n)
  }

  /** The value that the last of these lines to carry a caption gives it. */
  function LastSaid(names: seq<string>, counter: Counter<string>, caption: Caption): Option<string> {
    if names == [] then None
    else
      var body := FaultBody(names[|names| - 1], counter);
      if CaptionAt(body) == Some(caption) then Some(ValueAfterColon(body))
      else LastSaid(names[..|names| - 1], counter, caption)
  }

  /** The line carries no number that the reader cannot take. */
  predicate Digestible(body: string) {
    match CaptionAt(body)
    case None => true
    case Some(caption) => TextCaption(caption) || FirstInteger(ValueAfterColon(body)).Ok?
  }

  lemma SpokeMeans(r: Response, body: string)
    ensures Spoke(r, body).Ok? <==> Digestible(body)
    ensures Spoke(r, body).Ok? ==> forall caption: Caption ::
      ValueOf(Spoke(r, body).value, caption) ==
        if CaptionAt(body) == Some(caption) then Meant(caption, ValueAfterColon(body)) else ValueOf(r, caption)
  {
  }

  lemma {:induction false} OverwrittenMeans(r: Response, names: seq<string>, counter: Counter<string>, caption: Caption)
    ensures Overwritten(r, names, counter).Ok? <==> forall name <- names :: Digestible(FaultBody(name, counter))
    ensures Overwritten(r, names, counter).Ok? ==>
      var said := LastSaid(names, counter, caption);
      ValueOf(Overwritten(r, names, counter).value, caption) ==
        if said.Some? then Meant(caption, said.value) else ValueOf(r, caption)
  {
    if names != [] {
      var init, last := names[..|names| - 1], names[|names| - 1];
      assert names == init + [last];
      OverwrittenMeans(r, init, counter, caption);
      if Overwritten(r, init, counter).Ok? {
        SpokeMeans(Overwritten(r, init, counter).value, FaultBody(last, counter));
      }
    }
  }

  lemma SameValues(a: Response, b: Response)
    requires Merge(a, b) == a && forall caption: Caption :: ValueOf(a, caption) == ValueOf(b, caption)
    ensures a == b
  {
    assert ValueOf(a, EventsLoaded) == ValueOf(b, EventsLoaded) && ValueOf(a, RuntimeStatus) == ValueOf(b, RuntimeStatus);
    assert ValueOf(a, Simulation) == ValueOf(b, Simulation) && ValueOf(a, SchedulerMode) == ValueOf(b, SchedulerMode);
    assert ValueOf(a, ConfiguredDuration) == ValueOf(b, ConfiguredDuration);
    assert ValueOf(a, ObservedDuration) == ValueOf(b, ObservedDuration);
  }

  /** Fault types whose lines carry captions do no harm if their numbers can be read and the last line to
      carry a caption says what the report says under it. A type that starts with no caption never does. */
  ghost predicate HarmlessFaults(r: HealthReport) {
    && (forall key <- r.faultCounts :: Digestible(FaultBody(key, r.faultCounts)))
    && (forall caption: Caption ::
          var said := LastSaid(Sorted(r.faultCounts.Keys), r.faultCounts, caption);
          said.Some? ==> Meant(caption, said.value) == ValueOf(Recovered(r, []), caption))
  }

  /** The same of a response and a counter's lines in order. */
  ghost predicate Harmless(r: Response, names: seq<string>, counter: Counter<string>) {
    && (forall name <- names :: Digestible(FaultBody(name, counter)))
    && (forall caption: Caption ::
          var said := LastSaid(names, counter, caption);
          said.Some? ==> Meant(caption, said.value) == ValueOf(r, caption))
  }

  lemma UnchangedIsHarmless(r: Response, names: seq<string>, counter: Counter<string>)
    requires Overwritten(r, names, counter) == Ok(r)
    ensures Harmless(r, names, counter)
  {
    forall caption: Caption
      ensures LastSaid(names, counter, caption).Some? ==>
        Meant(caption, LastSaid(names, counter, caption).value) == ValueOf(r, caption)
    {
      OverwrittenMeans(r, names, counter, caption);
    }
    OverwrittenMeans(r, names, counter, EventsLoaded);
  }

  lemma HarmlessIsUnchanged(r: Response, names: seq<string>, counter: Counter<string>)
    requires Harmless(r, names, counter)
    ensures Overwritten(r, names, counter) == Ok(r)
  {
    OverwrittenMeans(r, names, counter, EventsLoaded);
    OnlyCaptionsOverwritten(r, names, counter);
    var after := Overwritten(r, names, counter).value;
    forall caption: Caption ensures ValueOf(after, caption) == ValueOf(r, caption) {
      OverwrittenMeans(r, names, counter, caption);
    }
    SameValues(after, r);
  }

  lemma SameCaptions(r: HealthReport, causes: seq<string>, caption: Caption)
    ensures ValueOf(Recovered(r, causes), caption) == ValueOf(Recovered(r, []), caption)
  {
  }

  /** The report survives its fault counter exactly when the faults are harmless. */
  lemma HarmlessExactly(r: HealthReport, causes: seq<string>)
    ensures Overwritten(Recovered(r, causes), Sorted(r.faultCounts.Keys), r.faultCounts) == Ok(Recovered(r, causes)) <==>
      HarmlessFaults(r)
  {
    var full, names, counter := Recovered(r, causes), Sorted(r.faultCounts.Keys), r.faultCounts;
    forall caption: Caption ensures ValueOf(full, caption) == ValueOf(Recovered(r, []), caption) {
      SameCaptions(r, causes, caption);
    }
    assert HarmlessFaults(r) <==> Harmless(full, names, counter);
    if Harmless(full, names, counter) {
      HarmlessIsUnchanged(full, names, counter);
    }
    if Overwritten(full, names, counter) == Ok(full) {
      UnchangedIsHarmless(full, names, counter);
    }
  }

  lemma {:induction false} NoCaptionSaysNothing(names: seq<string>, counter: Counter<string>, caption: Caption)
    requires forall name <- names :: CaptionAt(FaultBody(name, counter)).None?
    ensures LastSaid(names, counter, caption).None?
  {
    if names != [] {
      assert names[|names| - 1] in names && forall name <- names[..|names| - 1] :: name in names;
      NoCaptionSaysNothing(names[..|names| - 1], counter, caption);
    }
  }

  /** Fault types that start with no caption are harmless. */
  lemma QuietFaultsAreHarmless(r: HealthReport)
    requires forall key <- r.faultCounts :: CaptionAt(FaultBody(key, r.faultCounts)).None?
    ensures HarmlessFaults(r)
  {
    forall caption: Caption ensures LastSaid(Sorted(r.faultCounts.Keys), r.faultCounts, caption).None? {
      NoCaptionSaysNothing(Sorted(r.faultCounts.Keys), r.faultCounts, caption);
    }
  }

  // ---------- reports whose names are free ----------

  ghost function LinesBefore(r: HealthReport): seq<Line> {
    FigureLines(r) + MessagePart(r.messages) + [Heading(FaultHead)]
  }

  ghost function FaultLines(counter: Counter<string>): seq<Line> {
    if counter == map[] then [Plain(NoneEntry)] else CounterLines(Sorted(counter.Keys), counter)
  }

  ghost function LinesAfter(r: HealthReport, d: Option<DetectorReport>): seq<Line> {
    [Empty] + SummaryLines(r) + CausePart(r.causes) + ExtraLines(d)
  }

  lemma AroundFaults<T>(
    figures: seq<T>, messages: seq<T>, head: seq<T>, body: seq<T>, end: seq<T>,
    watchdog: seq<T>, failure: seq<T>, causes: seq<T>, extra: seq<T>)
    ensures
      figures + (messages + ((head + body + end) + watchdog + failure) + causes) + extra ==
      (figures + messages + head) + body + (end + (watchdog + failure) + causes + extra)
  {
  }

  lemma ReportAroundFaults(r: HealthReport, d: Option<DetectorReport>)
    ensures HealthLines(r) + ExtraLines(d) == LinesBefore(r) + FaultLines(r.faultCounts) + LinesAfter(r, d)
  {
    AroundFaults(FigureLines(r), MessagePart(r.messages), [Heading(FaultHead)], FaultLines(r.faultCounts), [Empty],
      WatchdogPart(r), FailurePart(r), CausePart(r.causes), ExtraLines(d));
  }

  /** The reader when it comes to the fault counter. */
  ghost function AtFaults(r: HealthReport): ReaderState {
    var filed := AfterTaskPart(AfterCounts(r), r.metrics);
    filed.(section := OtherSection, response := filed.response.(messages := ReadMessages(r.messages)))
  }

  lemma BeforeTells(r: HealthReport)
    requires Regular(r) && FreeNames(r)
    ensures Tells(AtStart, LinesBefore(r), AtFaults(r))
  {
    var filed := AfterTaskPart(AfterCounts(r), r.metrics);
    var sent := filed.(section := MessageSummary, response := filed.response.(messages := ReadMessages(r.messages)));
    FiguresTell(r);
    MessagePartTells(filed, r.messages);
    TellsConcat(AtStart, FigureLines(r), filed, MessagePart(r.messages), sent);
    TellsMore(AtStart, FigureLines(r) + MessagePart(r.messages), sent, Heading(FaultHead));
  }

  /** The drivers of the anomaly report, where there is one, are read as causes. */
  function ExtraCauses(d: Option<DetectorReport>): seq<string> {
    if d.Some? then DriverTexts(d.value.drivers) else []
  }

  lemma ExtraTells(st: ReaderState, d: Option<DetectorReport>)
    requires st.section.RootCauses? && (d.Some? ==> PrintableDetector(d.value))
    ensures Tells(st, ExtraLines(d), WithCauses(st, ExtraCauses(d)))
  {
    if d.Some? {
      DetectorTells(st, d.value);
    } else {
      assert st.response.rootCauses + [] == st.response.rootCauses;
    }
  }

  lemma AfterTells(st: ReaderState, r: HealthReport, d: Option<DetectorReport>)
    requires Regular(r) && (d.Some? ==> PrintableDetector(d.value)) && st.section.OtherSection?
    ensures Tells(st, LinesAfter(r, d), WithCauses(st.(section := RootCauses), r.causes + ExtraCauses(d)))
  {
    var caused := WithCauses(st.(section := RootCauses), r.causes);
    TellsOne(st, Empty);
    SummariesTell(st, r);
    TellsConcat(st, [Empty], st, SummaryLines(r), st);
    CausePartTells(st, r.causes);
    TellsConcat(st, [Empty] + SummaryLines(r), st, CausePart(r.causes), caused);
    ExtraTells(caused, d);
    ConcatAssociative(st.response.rootCauses, r.causes, ExtraCauses(d));
    TellsConcat(st, [Empty] + SummaryLines(r) + CausePart(r.causes), caused, ExtraLines(d),
      WithCauses(st.(section := RootCauses), r.causes + ExtraCauses(d)));
  }

  lemma FaultsAreRead(st: ReaderState, counter: Counter<string>)
    requires st.section.OtherSection? && RegularCounter(counter)
    ensures ReadLines(st, RenderAll(FaultLines(counter))) ==
      Carried(st, Overwritten(st.response, Sorted(counter.Keys), counter))
  {
    if counter == map[] {
      TellsOne(st, Plain(NoneEntry));
      ReadRendered(st, [Plain(NoneEntry)]);
      assert Sorted(counter.Keys) == [] by {
        assert forall name :: name !in Sorted(counter.Keys);
      }
    } else {
      SkippedLinesAreRead(st, Sorted(counter.Keys), counter);
    }
  }

  /** Reading lines of three parts, the middle of which may fail. */
  lemma ReadAround(st: ReaderState, a: seq<Line>, b: seq<Line>, c: seq<Line>)
    requires ReadLines(st, RenderAll(a)).Ok?
    ensures
      var middle := ReadLines(ReadLines(st, RenderAll(a)).value, RenderAll(b));
      ReadLines(st, RenderAll(a + b + c)) == if middle.Ok? then ReadLines(middle.value, RenderAll(c)) else middle
  {
    RenderConcat(a + b, c);
    RenderConcat(a, b);
    ReadConcat(st, RenderAll(a), RenderAll(b));
    if ReadLines(st, RenderAll(a) + RenderAll(b)).Ok? {
      ReadConcat(st, RenderAll(a) + RenderAll(b), RenderAll(c));
    } else {
      ReadConcatErr(st, RenderAll(a) + RenderAll(b), RenderAll(c));
    }
  }

  lemma FinalResponse(r: HealthReport, captions: Response, causes: seq<string>)
    requires Merge(captions, AtFaults(r).response) == captions
    ensures
      var after := WithCauses(AtFaults(r).(section := RootCauses, response := captions), causes);
      after.response.(taskMetrics := Filed(after)) == Merge(captions, Recovered(r, causes))
  {
    FiledTasks(AfterCounts(r), r.metrics);
    assert [] + causes == causes;
  }

  lemma AtFaultsMerges(r: HealthReport, causes: seq<string>)
    ensures Merge(AtFaults(r).response, Recovered(r, causes)) == Recovered(r, causes)
  {
  }

  /** What the reader makes of the lines from the fault counter on. */
  lemma FaultsAndAfter(r: HealthReport, d: Option<DetectorReport>, captions: Response)
    requires Regular(r) && (d.Some? ==> PrintableDetector(d.value))
    requires Overwritten(AtFaults(r).response, Sorted(r.faultCounts.Keys), r.faultCounts) == Ok(captions)
    ensures
      Concluded(ReadLines(AtFaults(r).(response := captions), RenderAll(LinesAfter(r, d)))) ==
      Ok(Merge(captions, Recovered(r, r.causes + ExtraCauses(d))))
  {
    var after := AtFaults(r).(response := captions);
    OnlyCaptionsOverwritten(AtFaults(r).response, Sorted(r.faultCounts.Keys), r.faultCounts);
    AfterTells(after, r, d);
    ReadRendered(after, LinesAfter(r, d));
    FinalResponse(r, captions, r.causes + ExtraCauses(d));
  }

  /** Reading the report in three parts, of which the first is understood. */
  lemma FreeParts(r: HealthReport, d: Option<DetectorReport>)
    requires Regular(r) && FreeNames(r) && (d.Some? ==> PrintableDetector(d.value))
    ensures
      var middle := Overwritten(AtFaults(r).response, Sorted(r.faultCounts.Keys), r.faultCounts);
      ReadReport(JoinLines(RenderAll(HealthLines(r) + ExtraLines(d)))) ==
        if middle.Err? then Err(middle.error)
        else Concluded(ReadLines(AtFaults(r).(response := middle.value), RenderAll(LinesAfter(r, d))))
  {
    ReportIsInked(r, d);
    ReadText(HealthLines(r) + ExtraLines(d));
    ReportAroundFaults(r, d);
    BeforeTells(r);
    ReadRendered(AtStart, LinesBefore(r));
    ReadAround(AtStart, LinesBefore(r), FaultLines(r.faultCounts), LinesAfter(r, d));
    FaultsAreRead(AtFaults(r), r.faultCounts);
  }

  /** A regular report whose names are free reads as itself, but for what its fault types say. */
  lemma FreeReading(r: HealthReport, d: Option<DetectorReport>)
    requires Regular(r) && FreeNames(r) && (d.Some? ==> PrintableDetector(d.value))
    ensures ReadReport(JoinLines(RenderAll(HealthLines(r) + ExtraLines(d)))) ==
      Overwritten(Recovered(r, r.causes + ExtraCauses(d)), Sorted(r.faultCounts.Keys), r.faultCounts)
  {
    var causes, names, before := r.causes + ExtraCauses(d), Sorted(r.faultCounts.Keys), AtFaults(r).response;
    FreeParts(r, d);
    AtFaultsMerges(r, causes);
    OverwrittenMerges(before, Recovered(r, causes), names, r.faultCounts);
    if Overwritten(before, names, r.faultCounts).Ok? {
      FaultsAndAfter(r, d, Overwritten(before, names, r.faultCounts).value);
    }
  }

  // ---------- exactly ----------

  /** A report that is read right has free names. */
  lemma OnlyFreeNames(r: HealthReport, d: Option<DetectorReport>)
    requires Regular(r) && (d.Some? ==> PrintableDetector(d.value))
    requires ReadReport(JoinLines(RenderAll(HealthLines(r) + ExtraLines(d)))) == Ok(Recovered(r, r.causes + ExtraCauses(d)))
    ensures FreeNames(r)
  {
    var texts := RenderAll(HealthLines(r) + ExtraLines(d));
    ReportIsInked(r, d);
    ReadText(HealthLines(r) + ExtraLines(d));
    RecoveredParts(r, r.causes + ExtraCauses(d), ReadLines(AtStart, texts));
    OnlyFreeTasks(r, texts);
    OnlyFreeCounts(r, d, EventCounts);
    OnlyFreeCounts(r, d, SeverityCounts);
  }

  lemma RecoveredParts(r: HealthReport, causes: seq<string>, read: Result<ReaderState, ParseError>)
    requires Concluded(read) == Ok(Recovered(r, causes))
    ensures read.Ok? && Filed(read.value) == ShownMetrics(r.metrics)
    ensures CountsOf(read.value.response, EventCounts) == AsRead(CounterOf(r, EventCounts))
    ensures CountsOf(read.value.response, SeverityCounts) == AsRead(CounterOf(r, SeverityCounts))
  {
  }

  lemma OnlyFreeTasks(r: HealthReport, texts: seq<string>)
    requires ReadLines(AtStart, texts).Ok? && Filed(ReadLines(AtStart, texts).value) == ShownMetrics(r.metrics)
    ensures FreeTasks(r)
  {
    forall name | name in r.metrics ensures FreeTask(name) {
      assert name in ShownMetrics(r.metrics);
      if !FreeTask(name) {
        TaskNeverRead(AtStart, texts, name);
      }
    }
  }

  lemma OnlyFreeCounts(r: HealthReport, d: Option<DetectorReport>, counted: Section)
    requires Regular(r) && FreeTasks(r) && (d.Some? ==> PrintableDetector(d.value))
    requires counted.EventCounts? || counted.SeverityCounts?
    requires ReadLines(AtStart, RenderAll(HealthLines(r) + ExtraLines(d))).Ok?
    requires CountsOf(ReadLines(AtStart, RenderAll(HealthLines(r) + ExtraLines(d))).value.response, counted) ==
      AsRead(CounterOf(r, counted))
    ensures FreeCounter(CounterOf(r, counted))
  {
    var texts, counter := RenderAll(HealthLines(r) + ExtraLines(d)), CounterOf(r, counted);
    forall key | key in counter ensures ':' !in key {
      assert key in AsRead(counter);
      if ':' in key {
        ColonNeverCounted(AtStart, texts, counted, key);
      }
    }
    forall key | key in counter ensures FreeCount(key) {
      assert key in AsRead(counter);
      CaptionByKey(CAPTIONS, key, "");
      assert key + ":" + "" == key + ":";
      if !FreeCount(key) {
        CaptionNeverCounted(r, d, counted, key);
      }
    }
  }

  /** For every regular report, with or without the anomaly report behind it: parsing the print gives the
      report back exactly if every task's name and every event's and severity's key is free and the fault
      types are harmless. */
  lemma RoundTripExactly(r: HealthReport, d: Option<DetectorReport>)
    requires Regular(r) && (d.Some? ==> PrintableDetector(d.value))
    ensures
      ReadReport(JoinLines(RenderAll(HealthLines(r) + ExtraLines(d)))) == Ok(Recovered(r, r.causes + ExtraCauses(d)))
      <==> FreeNames(r) && HarmlessFaults(r)
  {
    if FreeNames(r) {
      FreeReading(r, d);
      HarmlessExactly(r, r.causes + ExtraCauses(d));
    } else if ReadReport(JoinLines(RenderAll(HealthLines(r) + ExtraLines(d)))) == Ok(Recovered(r, r.causes + ExtraCauses(d))) {
      OnlyFreeNames(r, d);
    }
  }

  lemma NothingAdded<T>(s: seq<T>)
    ensures s + [] == s
  {
  }

  /** Parsing the health report. */
  lemma HealthReportRoundTrip(r: HealthReport)
    requires Regular(r)
    ensures ReadReport(JoinLines(RenderAll(HealthLines(r)))) == Ok(Recovered(r, r.causes)) <==>
      FreeNames(r) && HarmlessFaults(r)
  {
    RoundTripExactly(r, None);
    NothingAdded(HealthLines(r));
    NothingAdded(r.causes);
  }

  /** Parsing the health report with the anomaly report behind it: its drivers are read as further causes. */
  lemma FullReportRoundTrip(r: HealthReport, d: DetectorReport)
    requires Regular(r) && PrintableDetector(d)
    ensures ReadReport(FullText(r, d)) == Ok(Recovered(r, r.causes + DriverTexts(d.drivers))) <==>
      FreeNames(r) && HarmlessFaults(r)
  {
    RoundTripExactly(r, Some(d));
  }
}
