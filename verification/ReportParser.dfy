/** The reader of the analyzer's text report, as it goes through the lines one by one. */
module ReportParser {
  import opened Common
  import opened PlainText

  datatype Section =
    | NoSection | EventCounts | SeverityCounts | TaskSummary | MessageSummary | RootCauses | OtherSection

  datatype Caption = EventsLoaded | RuntimeStatus | Simulation | SchedulerMode | ConfiguredDuration | ObservedDuration

  datatype TaskMetric = TaskMetric(runs: int, misses: int, missedEvents: int, avgDurationMs: real, maxDurationMs: int)

  const NoTaskMetric: TaskMetric := TaskMetric(0, 0, 0, 0.0, 0)

  datatype Messages = Messages(sent: int, received: int, dropped: int, queueFullDrops: int, faultInjectedDrops: int)

  datatype Response = Response(
    runtimeHealth: Option<string>,
    eventsLoaded: Option<int>,
    simulationName: Option<string>,
    schedulerMode: Option<string>,
    durationSeconds: Option<int>,
    observedDurationMs: Option<int>,
    eventCounts: map<string, int>,
    severityCounts: map<string, int>,
    taskMetrics: map<string, TaskMetric>,
    messages: Messages,
    rootCauses: seq<string>)

  const NoResponse: Response :=
    Response(None, None, None, None, None, None, map[], map[], map[], Messages(0, 0, 0, 0, 0), [])

  datatype CurrentTask = CurrentTask(name: string, metric: TaskMetric)

  datatype ReaderState = ReaderState(section: Section, current: Option<CurrentTask>, response: Response)

  datatype ParseError = NumberTooLarge(digits: string)

  const MAX_INT: int := 0x7FFF_FFFF

  // ---------- values ----------

  /** The first run of digits; too large a number is an error the reader does not catch. */
  function FirstInteger(value: string): Result<Option<int>, ParseError> {
    var digits := FirstDigits(value);
    if digits == "" then Ok(None)
    else if NumberOf(digits) > MAX_INT then Err(NumberTooLarge(digits))
    else Ok(Some(NumberOf(digits)))
  }

  method CollectDigits(value: string) returns (digits: string)
    ensures digits == FirstDigits(value)
  {
    digits := "";
    var i := 0;
    while i < |value|
      invariant 0 <= i <= |value|
      invariant AllDigits(digits)
      invariant FirstDigits(value) == if digits == "" then FirstDigits(value[i..]) else digits + LeadingDigits(value[i..])
    {
      assert value[i..][1..] == value[i + 1..];
      if IsDigit(value[i]) {
        digits := digits + [value[i]];
      } else if |digits| > 0 {
        break;
      }
      i := i + 1;
    }
  }

  method ParseFirstInteger(value: string) returns (result: Result<Option<int>, ParseError>)
    ensures result == FirstInteger(value)
  {
    var digits := CollectDigits(value);
    if |digits| == 0 {
      return Ok(None);
    }
    if NumberOf(digits) > MAX_INT {
      return Err(NumberTooLarge(digits));
    }
    return Ok(Some(NumberOf(digits)));
  }

  /** A whole number with an optional sign; anything else, or one out of range, reads as zero. */
  function IntegerOrZero(value: string): int {
    var signed := value != "" && (value[0] == '-' || value[0] == '+');
    var digits := if signed then value[1..] else value;
    if digits == "" || !AllDigits(digits) then 0
    else
      var size: int := NumberOf(digits);
      var n := if signed && value[0] == '-' then -size else size;
      if -MAX_INT - 1 <= n <= MAX_INT then n else 0
  }

  function Fraction(digits: string): real
    requires AllDigits(digits)
  {
    if digits == "" then 0.0
    else
      assert forall c <- digits[1..] :: c in digits;
      (DigitValue(digits[0]) as real + Fraction(digits[1..])) / 10.0
  }

  function PointAt(s: string): (i: nat)
    ensures i <= |s|
    ensures i < |s| ==> s[i] == '.'
    ensures forall k | 0 <= k < i :: s[k] != '.'
  {
    if s == "" || s[0] == '.' then 0 else 1 + PointAt(s[1..])
  }

  /** A decimal number with an optional sign; anything else reads as zero. */
  function DecimalOrZero(value: string): real {
    var signed := value != "" && (value[0] == '-' || value[0] == '+');
    var text := if signed then value[1..] else value;
    var point := PointAt(text);
    var whole, fraction := text[..point], if point < |text| then text[point + 1..] else "";
    if !AllDigits(whole) || !AllDigits(fraction) || whole + fraction == "" then 0.0
    else
      var size := NumberOf(whole) as real + Fraction(fraction);
      if signed && value[0] == '-' then -size else size
  }

  function KeyOf(line: string): string
  {
    Trim(line[..ColonAt(line)])
  }

  function ValueAfterColon(line: string): string {
    var i := ColonAt(line);
    if i + 1 >= |line| then "" else Trim(line[i + 1..])
  }

  // ---------- what a line is ----------

  datatype Head =
    | EventHead | SeverityHead | TaskHead | MessageHead | CauseHead
    | FaultHead | WatchdogHead | FailureHead | DetectorHead

  const HEADS: seq<Head> := [
    EventHead, SeverityHead, TaskHead, MessageHead, CauseHead, FaultHead, WatchdogHead, FailureHead, DetectorHead]

  function HeadText(head: Head): string {
    match head
    case EventHead => "Event counts"
    case SeverityHead => "Severity counts"
    case TaskHead => "Task summary"
    case MessageHead => "Message summary"
    case CauseHead => "Likely root causes"
    case FaultHead => "Fault summary"
    case WatchdogHead => "Watchdog summary"
    case FailureHead => "Task failure summary"
    case DetectorHead => "Anomaly Detector"
  }

  function SectionOf(head: Head): Section {
    match head
    case EventHead => EventCounts
    case SeverityHead => SeverityCounts
    case TaskHead => TaskSummary
    case MessageHead => MessageSummary
    case CauseHead => RootCauses
    case _ => OtherSection
  }

  function FirstHead(heads: seq<Head>, title: string): Option<Head> {
    if heads == [] then None
    else if title == HeadText(heads[0]) then Some(heads[0])
    else FirstHead(heads[1..], title)
  }

  function HeaderOf(title: string): Option<Head> {
    FirstHead(HEADS, title)
  }

  predicate EndsWithColon(s: string) {
    s != "" && s[|s| - 1] == ':'
  }

  function HeaderAt(trimmed: string): Option<Head> {
    if EndsWithColon(trimmed) then HeaderOf(trimmed[..|trimmed| - 1]) else None
  }

  function CaptionText(caption: Caption): string {
    match caption
    case EventsLoaded => "Events loaded"
    case RuntimeStatus => "Runtime status"
    case Simulation => "Simulation"
    case SchedulerMode => "Scheduler mode"
    case ConfiguredDuration => "Configured duration"
    case ObservedDuration => "Observed log duration"
  }

  predicate HasCaption(trimmed: string, caption: Caption) {
    StartsWith(trimmed, CaptionText(caption) + ":")
  }

  const CAPTIONS: seq<Caption> := [
    EventsLoaded, RuntimeStatus, Simulation, SchedulerMode, ConfiguredDuration, ObservedDuration]

  function FirstCaption(captions: seq<Caption>, trimmed: string): Option<Caption> {
    if captions == [] then None
    else if HasCaption(trimmed, captions[0]) then Some(captions[0])
    else FirstCaption(captions[1..], trimmed)
  }

  function CaptionAt(trimmed: string): Option<Caption> {
    FirstCaption(CAPTIONS, trimmed)
  }

  // ---------- reading one line ----------

  function WithCaption(r: Response, caption: Caption, trimmed: string): Result<Response, ParseError> {
    var value := ValueAfterColon(trimmed);
    match caption
    case RuntimeStatus => Ok(r.(runtimeHealth := Some(value)))
    case Simulation => Ok(r.(simulationName := Some(value)))
    case SchedulerMode => Ok(r.(schedulerMode := Some(value)))
    case _ =>
      match FirstInteger(value)
      case Err(e) => Err(e)
      case Ok(number) =>
        match caption
        case EventsLoaded => Ok(r.(eventsLoaded := number))
        case ConfiguredDuration => Ok(r.(durationSeconds := number))
        case _ => Ok(r.(observedDurationMs := number))
  }

  /** A value without digits leaves the counter as it is. */
  function WithCounter(counter: map<string, int>, trimmed: string): Result<map<string, int>, ParseError> {
    match FirstInteger(ValueAfterColon(trimmed))
    case Err(e) => Err(e)
    case Ok(None) => Ok(counter)
    case Ok(Some(n)) => Ok(counter[KeyOf(trimmed) := n])
  }

  function WithMessages(m: Messages, trimmed: string): Result<Messages, ParseError> {
    match FirstInteger(ValueAfterColon(trimmed))
    case Err(e) => Err(e)
    case Ok(number) =>
      var n, key := if number.Some? then number.value else 0, KeyOf(trimmed);
      if key == "sent" then Ok(m.(sent := n))
      else if key == "received" then Ok(m.(received := n))
      else if key == "dropped" then Ok(m.(dropped := n))
      else if key == "queue_full_drops" then Ok(m.(queueFullDrops := n))
      else if key == "fault_injected_drops" then Ok(m.(faultInjectedDrops := n))
      else Ok(m)
  }

  function WithField(m: TaskMetric, trimmed: string): TaskMetric {
    var key, value := KeyOf(trimmed), ValueAfterColon(trimmed);
    if key == "runs" then m.(runs := IntegerOrZero(value))
    else if key == "deadline_misses" then m.(misses := IntegerOrZero(value))
    else if key == "deadline_missed_events" then m.(missedEvents := IntegerOrZero(value))
    else if key == "avg_duration_ms" then m.(avgDurationMs := DecimalOrZero(value))
    else if key == "max_duration_ms" then m.(maxDurationMs := IntegerOrZero(value))
    else m
  }

  /** File the task being read, if there is one. */
  function Filed(st: ReaderState): map<string, TaskMetric> {
    match st.current
    case None => st.response.taskMetrics
    case Some(task) => st.response.taskMetrics[task.name := task.metric]
  }

  function InTaskSummary(st: ReaderState, line: string, trimmed: string): ReaderState
    requires trimmed != ""
  {
    if StartsWith(line, "  ") && !StartsWith(line, "    ") && EndsWithColon(trimmed) then
      st.(current := Some(CurrentTask(trimmed[..|trimmed| - 1], NoTaskMetric)),
          response := st.response.(taskMetrics := Filed(st)))
    else if st.current.Some? && ':' in trimmed then
      st.(current := Some(CurrentTask(st.current.value.name, WithField(st.current.value.metric, trimmed))))
    else st
  }

  /** A line that is neither a header nor captioned means what its section says. */
  function Content(st: ReaderState, line: string, trimmed: string): Result<ReaderState, ParseError>
    requires trimmed != ""
  {
    var r := st.response;
    match st.section
    case EventCounts =>
      if ':' !in trimmed then Ok(st)
      else (match WithCounter(r.eventCounts, trimmed)
            case Err(e) => Err(e)
            case Ok(counter) => Ok(st.(response := r.(eventCounts := counter))))
    case SeverityCounts =>
      if ':' !in trimmed then Ok(st)
      else (match WithCounter(r.severityCounts, trimmed)
            case Err(e) => Err(e)
            case Ok(counter) => Ok(st.(response := r.(severityCounts := counter))))
    case MessageSummary =>
      if ':' !in trimmed then Ok(st)
      else (match WithMessages(r.messages, trimmed)
            case Err(e) => Err(e)
            case Ok(messages) => Ok(st.(response := r.(messages := messages))))
    case RootCauses =>
      if StartsWith(trimmed, "- ") then Ok(st.(response := r.(rootCauses := r.rootCauses + [trimmed[2..]])))
      else Ok(st)
    case TaskSummary => Ok(InTaskSummary(st, line, trimmed))
    case _ => Ok(st)
  }

  function ReadLine(st: ReaderState, raw: string): Result<ReaderState, ParseError> {
    var line := StripTrailing(raw);
    var trimmed := Trim(line);
    if IsBlank(trimmed) then Ok(st)
    else
      match HeaderAt(trimmed)
      case Some(head) => Ok(st.(section := SectionOf(head)))
      case None =>
        match CaptionAt(trimmed)
        case None => Content(st, line, trimmed)
        case Some(caption) =>
          match WithCaption(st.response, caption, trimmed)
          case Err(e) => Err(e)
          case Ok(response) => Ok(st.(response := response))
  }

  function ReadLines(st: ReaderState, lines: seq<string>): Result<ReaderState, ParseError>
    decreases |lines|
  {
    if lines == [] then Ok(st)
    else
      match ReadLine(st, lines[0])
      case Err(e) => Err(e)
      case Ok(next) => ReadLines(next, lines[1..])
  }

  const AtStart: ReaderState := ReaderState(NoSection, None, NoResponse)

  function ReadReport(text: string): Result<Response, ParseError> {
    match ReadLines(AtStart, SplitLines(text))
    case Err(e) => Err(e)
    case Ok(st) => Ok(st.response.(taskMetrics := Filed(st)))
  }

  // ---------- the reader as it runs ----------

  class MutableTaskMetric {
    var runs: int
    var misses: int
    var missedEvents: int
    var avgDurationMs: real
    var maxDurationMs: int

    constructor ()
      ensures ToResponse() == NoTaskMetric
    {
      runs, misses, missedEvents, avgDurationMs, maxDurationMs := 0, 0, 0, 0.0, 0;
    }

    function ToResponse(): TaskMetric
      reads this
    {
      TaskMetric(runs, misses, missedEvents, avgDurationMs, maxDurationMs)
    }

    method Update(line: string)
      modifies this
      ensures ToResponse() == WithField(old(ToResponse()), line)
    {
      var key, value := KeyOf(line), ValueAfterColon(line);
      if key == "runs" {
        runs := IntegerOrZero(value);
      } else if key == "deadline_misses" {
        misses := IntegerOrZero(value);
      } else if key == "deadline_missed_events" {
        missedEvents := IntegerOrZero(value);
      } else if key == "avg_duration_ms" {
        avgDurationMs := DecimalOrZero(value);
      } else if key == "max_duration_ms" {
        maxDurationMs := IntegerOrZero(value);
      }
    }
  }

  /** The variables of one parse. */
  class Reader {
    var section: Section
    var currentTask: Option<string>
    var currentMetric: MutableTaskMetric?
    var response: Response

    ghost predicate Valid()
      reads this
    {
      currentTask.Some? <==> currentMetric != null
    }

    function State(): ReaderState
      reads this, currentMetric
      requires Valid()
    {
      ReaderState(
        section,
        if currentMetric == null then None else Some(CurrentTask(currentTask.value, currentMetric.ToResponse())),
        response)
    }

    constructor ()
      ensures Valid() && State() == AtStart && currentMetric == null
    {
      section, currentTask, currentMetric, response := NoSection, None, null, NoResponse;
    }

    method FileTask()
      requires Valid()
      modifies this`response
      ensures Valid() && State() == old(State().(response := response.(taskMetrics := Filed(State()))))
    {
      if currentTask.Some? && currentMetric != null {
        var metric := currentMetric.ToResponse();
        response := response.(taskMetrics := response.taskMetrics[currentTask.value := metric]);
      }
    }

    method ReadTaskLine(line: string, trimmed: string)
      requires Valid() && trimmed != ""
      modifies this, currentMetric
      ensures Valid() && State() == InTaskSummary(old(State()), line, trimmed)
      ensures currentMetric == old(currentMetric) || fresh(currentMetric)
    {
      if StartsWith(line, "  ") && !StartsWith(line, "    ") && EndsWithColon(trimmed) {
        FileTask();
        currentTask := Some(trimmed[..|trimmed| - 1]);
        currentMetric := new MutableTaskMetric();
      } else if currentMetric != null && ':' in trimmed {
        currentMetric.Update(trimmed);
      }
    }

    method ReadContent(line: string, trimmed: string) returns (error: Option<ParseError>)
      requires Valid() && trimmed != ""
      modifies this, currentMetric
      ensures Valid() && (currentMetric == old(currentMetric) || fresh(currentMetric))
      ensures match Content(old(State()), line, trimmed)
              case Ok(st) => error == None && State() == st
              case Err(e) => error == Some(e)
    {
      error := None;
      if section.EventCounts? && ':' in trimmed {
        match WithCounter(response.eventCounts, trimmed)
        case Ok(counter) => response := response.(eventCounts := counter);
        case Err(e) => error := Some(e);
      } else if section.SeverityCounts? && ':' in trimmed {
        match WithCounter(response.severityCounts, trimmed)
        case Ok(counter) => response := response.(severityCounts := counter);
        case Err(e) => error := Some(e);
      } else if section.MessageSummary? && ':' in trimmed {
        match WithMessages(response.messages, trimmed)
        case Ok(messages) => response := response.(messages := messages);
        case Err(e) => error := Some(e);
      } else if section.RootCauses? && StartsWith(trimmed, "- ") {
        response := response.(rootCauses := response.rootCauses + [trimmed[2..]]);
      } else if section.TaskSummary? {
        ReadTaskLine(line, trimmed);
      }
    }

    method Read(raw: string) returns (error: Option<ParseError>)
      requires Valid()
      modifies this, currentMetric
      ensures Valid() && (currentMetric == old(currentMetric) || fresh(currentMetric))
      ensures match ReadLine(old(State()), raw)
              case Ok(st) => error == None && State() == st
              case Err(e) => error == Some(e)
    {
      error := None;
      var line := StripTrailing(raw);
      var trimmed := Trim(line);
      if IsBlank(trimmed) {
        return;
      }
      var header := HeaderAt(trimmed);
      if header.Some? {
        section := SectionOf(header.value);
        return;
      }
      var caption := CaptionAt(trimmed);
      if caption.Some? {
        match WithCaption(response, caption.value, trimmed)
        case Ok(after) => response := after;
        case Err(e) => error := Some(e);
      } else {
        error := ReadContent(line, trimmed);
      }
    }
  }

  method Parse(text: string) returns (result: Result<Response, ParseError>)
    ensures result == ReadReport(text)
  {
    var reader := new Reader();
    var lines := SplitLines(text);
    for i := 0 to |lines|
      invariant reader.Valid() && fresh(reader) && (reader.currentMetric != null ==> fresh(reader.currentMetric))
      invariant ReadLines(reader.State(), lines[i..]) == ReadLines(AtStart, lines)
    {
      assert lines[i..][1..] == lines[i + 1..];
      var error := reader.Read(lines[i]);
      if error.Some? {
        return Err(error.value);
      }
    }
    reader.FileTask();
    return Ok(reader.response);
  }
}
