/** The kinds of lines a report consists of, their text, and what the reader takes from each. */
module ReportLines {
  import opened Common
  import opened PlainText
  import opened ReportParser

  /** The words that the writer uses as they are. */
  datatype Word =
    | Title | AnomalyTitle | NoneEntry
    | LogFile | WatchdogTimeouts | TaskRecoveries | TaskFailures | TaskSkips
    | WindowSize | OverallClass | AnomalyCount | HighestScore
    | TimeoutTasks | RecoveredTasks | FailedTasks | SkippedTasks | TopDrivers | WindowSummary

  datatype MessageKey = Sent | Received | Dropped | QueueFullDrops | FaultInjectedDrops

  datatype MetricKey = Runs | Misses | MissedEvents | MaxDuration

  datatype Line =
    | Empty
    | Plain(word: Word)
    | Underline(length: nat)
    | CaptionedText(caption: Caption, text: string)
    | CaptionedNumber(caption: Caption, figure: int, unit: string)
    | Heading(head: Head)
    | SubHeading(word: Word)
    | Entry(key: string, n: nat)
    | MessageLine(messageKey: MessageKey, n: nat)
    | TaskName(name: string)
    | MetricLine(metricKey: MetricKey, value: int)
    | AverageLine(tenths: nat)
    | Unused(word: Word, text: string)
    | SubEntry(task: string, n: nat)
    | Bullet(text: string)
    | WindowLine(startMs: nat, endMs: nat, text: string)

  /** A line of equals signs. */
  function Rule(n: nat): string {
    if n == 0 then "" else Rule(n - 1) + "="
  }

  function WordText(word: Word): string {
    match word
    case Title => "MiniRTOS-Linux Runtime Health Analyzer"
    case AnomalyTitle => "AI Anomaly Detection Summary"
    case NoneEntry => "none"
    case LogFile => "Log file"
    case WatchdogTimeouts => "watchdog_timeouts"
    case TaskRecoveries => "task_recoveries"
    case TaskFailures => "task_failures"
    case TaskSkips => "task_skips"
    case WindowSize => "Window size"
    case OverallClass => "Overall classification"
    case AnomalyCount => "Anomaly windows"
    case HighestScore => "Highest anomaly score"
    case TimeoutTasks => "timeout_tasks"
    case RecoveredTasks => "recovered_tasks"
    case FailedTasks => "failed_tasks"
    case SkippedTasks => "skipped_tasks"
    case TopDrivers => "Top anomaly drivers"
    case WindowSummary => "Window summary"
  }

  function MessageText(key: MessageKey): string {
    match key
    case Sent => "sent"
    case Received => "received"
    case Dropped => "dropped"
    case QueueFullDrops => "queue_full_drops"
    case FaultInjectedDrops => "fault_injected_drops"
  }

  function MetricText(key: MetricKey): string {
    match key
    case Runs => "runs"
    case Misses => "deadline_misses"
    case MissedEvents => "deadline_missed_events"
    case MaxDuration => "max_duration_ms"
  }

  const AVERAGE_KEY: string := "avg_duration_ms"

  /** Words at the start of a line; all others stand indented below a heading. */
  predicate IsTopWord(word: Word) {
    || word.Title? || word.AnomalyTitle? || word.LogFile? || word.WindowSize? || word.OverallClass?
    || word.AnomalyCount? || word.HighestScore? || word.TopDrivers? || word.WindowSummary?
  }

  function Indent(word: Word): string {
    if IsTopWord(word) then "" else "  "
  }

  /** A number of tenths with one decimal. */
  function TenthsText(tenths: nat): string {
    Digits(tenths / 10) + "." + [DigitChar(tenths % 10)]
  }

  function Body(key: string, value: string): string {
    key + ":" + (" " + value)
  }

  function Keyed(indent: string, key: string, value: string): string {
    indent + Body(key, value)
  }

  function Headed(indent: string, title: string): string {
    indent + (title + ":" + "")
  }

  function Render(line: Line): string {
    match line
    case Empty => ""
    case Plain(word) => Indent(word) + WordText(word)
    case Underline(length) => "" + Rule(length)
    case CaptionedText(caption, text) => Keyed("", CaptionText(caption), text)
    case CaptionedNumber(caption, n, unit) => Keyed("", CaptionText(caption), SignedText(n) + unit)
    case Heading(head) => Headed("", HeadText(head))
    case SubHeading(word) => Headed(Indent(word), WordText(word))
    case Entry(key, n) => Keyed("  ", key, Digits(n))
    case MessageLine(key, n) => Keyed("  ", MessageText(key), Digits(n))
    case TaskName(name) => Headed("  ", name)
    case MetricLine(key, value) => Keyed("    ", MetricText(key), SignedText(value))
    case AverageLine(tenths) => Keyed("    ", AVERAGE_KEY, TenthsText(tenths))
    case Unused(word, text) => Keyed(Indent(word), WordText(word), text)
    case SubEntry(task, n) => Keyed("    ", "- " + task, Digits(n))
    case Bullet(text) => "  " + ("- " + text)
    case WindowLine(startMs, endMs, text) => Keyed("  ", Digits(startMs) + "-" + Digits(endMs) + " ms", text)
  }

  // ---------- what may be written ----------

  function FirstKey(captions: seq<Caption>, key: string): Option<Caption> {
    if captions == [] then None
    else if key == CaptionText(captions[0]) then Some(captions[0])
    else FirstKey(captions[1..], key)
  }

  /** A key that the reader does not take for one of its captions. */
  predicate FreeKey(key: string) {
    Neat(key) && OneLine(key) && ':' !in key && FirstKey(CAPTIONS, key).None?
  }

  /** A heading that is neither a caption nor a section title of the reader. */
  predicate FreeName(name: string) {
    FreeKey(name) && HeaderOf(name).None?
  }

  /** A task name whose line the reader takes for a task: it may hold colons. */
  predicate FreeTask(name: string) {
    HeaderOf(name).None? && CaptionAt(name + ":").None?
  }

  /** A counter key that the reader takes for a key as it is. */
  predicate FreeCount(key: string) {
    ':' !in key && CaptionAt(key + ":").None?
  }

  predicate FreeText(text: string) {
    Neat(text) && OneLine(text)
  }

  predicate Fits(n: int) {
    0 <= n <= MAX_INT
  }

  predicate IsUnit(unit: string) {
    unit == "" || unit == " ms" || unit == " seconds"
  }

  predicate TextCaption(caption: Caption) {
    caption.RuntimeStatus? || caption.Simulation? || caption.SchedulerMode?
  }

  predicate Writable(line: Line) {
    match line
    case CaptionedText(caption, text) => TextCaption(caption) && FreeText(text)
    case CaptionedNumber(caption, n, unit) => !TextCaption(caption) && Fits(n) && IsUnit(unit)
    case Entry(key, n) => FreeText(key) && Fits(n)
    case MessageLine(_, n) => Fits(n)
    case TaskName(name) => FreeText(name) && FreeTask(name)
    case MetricLine(_, value) => -MAX_INT - 1 <= value <= MAX_INT
    case Underline(length) => length > 0
    case Unused(_, text) => FreeText(text)
    case SubEntry(task, _) => OneLine(task)
    case Bullet(text) => FreeText(text)
    case WindowLine(_, _, text) => FreeText(text)
    case _ => true
  }

  /** The sections in which a kind of line stands and is taken for what it is. */
  predicate Belongs(line: Line, section: Section) {
    match line
    case Entry(key, n) =>
      || ((section.EventCounts? || section.SeverityCounts?) && FreeCount(key))
      || (section.OtherSection? && CaptionAt(Body(key, Digits(n))).None?)
    case MessageLine(_, _) => section.MessageSummary?
    case TaskName(_) => section.TaskSummary?
    case MetricLine(_, _) => section.TaskSummary?
    case AverageLine(_) => section.TaskSummary?
    case Unused(_, _) => section.NoSection? || section.OtherSection? || section.RootCauses?
    case SubHeading(_) => section.OtherSection? || section.RootCauses?
    case SubEntry(_, _) => section.OtherSection?
    case Bullet(_) => section.RootCauses?
    case WindowLine(_, _, _) => section.RootCauses?
    case _ => true
  }

  // ---------- what the reader takes from a line ----------

  function Captioned(r: Response, caption: Caption, text: string): Response {
    match caption
    case RuntimeStatus => r.(runtimeHealth := Some(text))
    case Simulation => r.(simulationName := Some(text))
    case _ => r.(schedulerMode := Some(text))
  }

  function Numbered(r: Response, caption: Caption, n: int): Response {
    match caption
    case EventsLoaded => r.(eventsLoaded := Some(n))
    case ConfiguredDuration => r.(durationSeconds := Some(n))
    case _ => r.(observedDurationMs := Some(n))
  }

  function Messaged(m: Messages, key: MessageKey, n: int): Messages {
    match key
    case Sent => m.(sent := n)
    case Received => m.(received := n)
    case Dropped => m.(dropped := n)
    case QueueFullDrops => m.(queueFullDrops := n)
    case FaultInjectedDrops => m.(faultInjectedDrops := n)
  }

  function Measured(m: TaskMetric, key: MetricKey, value: int): TaskMetric {
    match key
    case Runs => m.(runs := value)
    case Misses => m.(misses := value)
    case MissedEvents => m.(missedEvents := value)
    case MaxDuration => m.(maxDurationMs := value)
  }

  function WithMetric(st: ReaderState, metric: TaskMetric): ReaderState
    requires st.current.Some?
  {
    st.(current := Some(CurrentTask(st.current.value.name, metric)))
  }

  function Meaning(st: ReaderState, line: Line): ReaderState {
    var r := st.response;
    match line
    case CaptionedText(caption, text) => st.(response := Captioned(r, caption, text))
    case CaptionedNumber(caption, n, _) => st.(response := Numbered(r, caption, n))
    case Heading(head) => st.(section := SectionOf(head))
    case Entry(key, n) =>
      if st.section.EventCounts? then st.(response := r.(eventCounts := r.eventCounts[key := n]))
      else if st.section.SeverityCounts? then st.(response := r.(severityCounts := r.severityCounts[key := n]))
      else st
    case MessageLine(key, n) => st.(response := r.(messages := Messaged(r.messages, key, n)))
    case TaskName(name) =>
      st.(current := Some(CurrentTask(name, NoTaskMetric)), response := r.(taskMetrics := Filed(st)))
    case MetricLine(key, value) =>
      if st.current.Some? then WithMetric(st, Measured(st.current.value.metric, key, value)) else st
    case AverageLine(tenths) =>
      if st.current.Some? then WithMetric(st, st.current.value.metric.(avgDurationMs := tenths as real / 10.0)) else st
    case Bullet(text) => st.(response := r.(rootCauses := r.rootCauses + [text]))
    case _ => st
  }
}
