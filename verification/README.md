# MiniRTOS model

A Dafny model of the MiniRTOS playground: the C++ runtime that schedules periodic tasks, the log it writes,
the Python analyzers that judge the log, the Java parser that reads their report, and the monthly cost
alerts. `dafny verify dfyconfig.toml` checks everything.

## What is modelled

**The runtime** (`Machine`, `Scheduling` and the modules they import). One dispatch is a function on values,
`Machine.Execute`: it skips a failed task, crashes the target of a crash fault, or runs the task, inspects it with the
watchdog and exchanges its message. Passes are a state machine over labels (`BeginPass`, `Rest`,
`EndOfTime`, `NotDue`, `Dispatch`); a run is a legal sequence of labels and `Machine.Reach` the world it
leads to. The classes `Clock`, `Task`, `Bus`, `Dog`, `Injector`, `Logger` and `Scheduler` update their fields
the way the C++ objects do, and `Scheduler.Run` is proved to produce a legal run from a proper start whose
log is the one the run wrote, with termination. The clock is any monotone clock: it may stand still between
readings, and a sleep moves it by at least what was asked. Elapsed milliseconds are truncated as in the
source.

**Whole-run properties** are lemmas over every legal run in every mode: waiting bounds (and a run that attains
them), dispatch order, when a dispatch skips, fails, slows, loses or refuses, what it writes to the log, processor time, message conservation, dispatch accounting, capacity, crash isolation,
watchdog alerts and their budget.

**The analyzers** (`LogRecords` to `AnalyzersAgree`). Health verdict, task metrics and root causes are computed
by methods with loops and proved first about any log, then about the log of any run. The anomaly detector's
windows, features, score, class and drivers are modelled over exact rationals; when it calls a log unstable, a
warning or normal is said exactly, and so is when it differs from the health analyzer over skips. `MetricFacts` and
`DetectorFacts` say every figure of both reports in the fields of the records.

**The texts.** `JsonText`, `LogFile` and `LogFields` model the JSON lines and their loading; `ReportPrinter` and
`ReportParser` model the report in two languages, and `ReportExactness` says for which reports parsing undoes
printing. `LogDetails` gives the members of every kind of log line, `PrintedFacts` and `PrintedWords` the lines of the
reports that no parser reads, and `ReadingFacts` what the readers make of any text. `EndToEnd.RunAndPublish` puts everything together: a scheduler run, its log file, loading, analysis, both
printed reports and the parsed web report. It shows the true verdict, task counters, message figures and header of
the run exactly if the tasks' names are readable: encodable in the log, no section title of the parser, and not
beginning with one of its captions and a colon. Nothing else a run can do spoils the report, as long as the given
texts stand on one line without white space at their ends and the log's numbers fit the parser's integers.

**Cost alerts** (`CostAlerts`, `CostMonths`) model one check with its stored state, messages that may fail and a
write that may fail, and then any sequence of checks.

Facts of the code that the model keeps and that a reader may not expect:

- A task released during a priority or deadline pass waits for the next pass.
- The watchdog takes a task's first inspection as its baseline, so a miss on the first run never counts.
- The `deadline_missed` flag in the log and the miss counter apply different tests
  (`TruthfulMetrics.FlagVersusCount` says when they differ).
- The parser knows a section title "Anomaly Detector" that the printer never writes. So the drivers listed
  by the anomaly report, or the word "none", join the root causes
  (`ReportExactness.FullReportRoundTrip`).
- The parser looks for section titles and captions on every line, so a task named "Event counts", or
  "Simulation: north", is not read as a task, while "Motor: left" is (`NameReading.TaskNameExactly`). A counter key
  must hold no colon at all (`NameReading.EntryExactly`). Fault types are read by nobody, and harm only as captions
  (`ReportExactness.HarmlessExactly`).
- A cost check stores its state after its last message, so after a check that fails midway the next one sends its
  first threshold again (`CostMonths.RepeatsExactly`).
- Both analyzers call any run with a failure, skip or alert unstable, but on a log that no run writes they can
  differ (`AnalyzersAgree.SkipsSplitExactly` says when).
- A log text with a control character that the writer does not escape makes the whole file unloadable
  (`LogFile.FileRoundTrip` gives the exact condition and line).

Preconditions are the loader's checks on the configuration (`cpp-runtime/src/Config.cpp:39-120`), positive cost
settings (`terraform/modules/cost-controls/variables.tf:51-69`), and distinct task names, which the loader does not check although the
queues, the failed set and the watchdog maps are keyed by name.

## Model

| member | source | states |
|---|---|---|
| SteadyClock.WholeMsMeaning | cpp-runtime/src/Task.cpp:26-35 | truncating a tick difference to milliseconds, and comparing the result, is said exactly by two predicates without division |
| SteadyClock.Clock.SleepFor | cpp-runtime/src/Task.cpp:37-39 | a sleep lasts at least what was asked and none for a non-positive request |
| PeriodicTask.Task.Run | cpp-runtime/src/Task.cpp:26-46 | the counters and the next release after a run, counted from the dispatch time, by whole milliseconds of lateness and the time requested; and the least time the run takes |
| PeriodicTask.Task.Skip | cpp-runtime/src/Task.cpp:48-50 | a skip moves only the next release |
| MessageBus.Bus.RegisterTaskQueue | cpp-runtime/src/MessageBus.cpp:6-19 | error exactly for an empty name or non-positive limit; otherwise an empty queue under that name |
| MessageBus.Bus.Send | cpp-runtime/src/MessageBus.cpp:21-37 | accepted exactly when the target has a queue that holds fewer messages than its limit; appends at the end, changes nothing otherwise, keeps all limits |
| MessageBus.Bus.Receive | cpp-runtime/src/MessageBus.cpp:39-56 | takes the oldest message, or nothing from an empty or unknown queue |
| FaultInjector.FaultsArePermanent | cpp-runtime/src/FaultInjector.cpp:14-64 | a fault acts on its target exactly from its starting time on, so it keeps acting at all later times, and only one kind ever acts |
| FaultInjector.Injector.ShouldDropMessage | cpp-runtime/src/FaultInjector.cpp:66-92 | the drop decision for source or target, certain at 0 and 100 percent and by the draw in between |
| Watchdog.Dog.InspectTask | cpp-runtime/src/Watchdog.cpp:11-70 | the three maps and the alert after an inspection |
| WatchdogHistory.AnswersFollowOwnHistory | cpp-runtime/src/Watchdog.cpp:11-70 | under any interleaving of tasks an alert fires exactly when the inspected task's own last threshold inspections each saw a new miss, no recovery interrupted them and the cooldown has passed |
| WatchdogHistory.MapsFollowHistory | cpp-runtime/src/Watchdog.cpp:19-61 | the entries of one task in the three maps are functions of that task's own inspections |
| WatchdogHistory.AlertsUseUpMisses | cpp-runtime/src/Watchdog.cpp:29-61 | with recovery, alerts times threshold never exceed the misses counted |
| WatchdogHistory.AlertsWaitForCooldowns | cpp-runtime/src/Watchdog.cpp:41-61 | with recovery, all alerts but one wait out a cooldown each |
| WatchdogRuns.AlertsFollowOwnRuns | cpp-runtime/src/Scheduler.cpp:297-323 | in every run the alert after a run of a task depends on that task's own runs only |
| WatchdogRuns.AlertsStayInBudget | cpp-runtime/src/Scheduler.cpp:467-503 | per task, over any run: timeouts times threshold at most the final misses, (timeouts - 1) cooldowns at most the elapsed time, and as many recoveries as timeouts |
| EventLog.Logger.Log | cpp-runtime/src/Logger.cpp:384-397 | appends one event stamped with a fresh reading; stamps never decrease |
| PassOrder.InOrder | cpp-runtime/src/Scheduler.cpp:164-176 | the stable sort rearranges the due tasks |
| PassOrder.SortedInStrictOrder | cpp-runtime/src/Scheduler.cpp:121-131 | the stable sort yields strict order by key, then configuration index |
| PassOrder.StrictOrderIsUnique | cpp-runtime/src/Scheduler.cpp:164-176 | no other arrangement of the same tasks is in that order |
| PassOrder.PrecedesIsTotalOrder | cpp-runtime/src/Scheduler.cpp:164-176 | the comparison, with ties by index, is a strict total order |
| Scheduling.Scheduler.HandleTaskCrashIfNeeded | cpp-runtime/src/Scheduler.cpp:195-239 | skips failed tasks, fails the target once, leaves all others alone, as the machine says |
| Scheduling.Scheduler.SendMessageToLoggerTask | cpp-runtime/src/Scheduler.cpp:347-438 | the drop test comes before the queue; every outcome uses up one id and writes its records |
| Scheduling.Scheduler.ReceiveMessageForTask | cpp-runtime/src/Scheduler.cpp:440-465 | collects at most one message and records it with the remaining depth |
| Scheduling.Scheduler.InspectWatchdogForTask | cpp-runtime/src/Scheduler.cpp:467-503 | records a timeout, and a recovery exactly when one was performed |
| Scheduling.Scheduler.ExecuteTask | cpp-runtime/src/Scheduler.cpp:241-326 | one dispatch changes tasks, queues, watchdog, failed set, ids and log exactly as `Machine.Execute` does |
| Scheduling.Scheduler.RoundRobinUntil | cpp-runtime/src/Scheduler.cpp:83-102 | the loop ends although the clock may move only by sleeps, and extends a legal run to the end of time |
| Scheduling.Scheduler.SnapshotPassesUntil | cpp-runtime/src/Scheduler.cpp:110-145 | the same for the priority and deadline loops |
| Scheduling.Scheduler.SortedDueTasks | cpp-runtime/src/Scheduler.cpp:111-131 | the turns of a pass: the due tasks at the snapshot in sorted order |
| Scheduling.DispatchMakesProgress | cpp-runtime/src/Scheduler.cpp:195-244 | a dispatch that takes no time removes its task from the due ones |
| Scheduling.Scheduler.InitializeMessageQueues | cpp-runtime/src/Scheduler.cpp:72-76 | one empty queue per task, under its name, with its limit |
| Scheduling.Scheduler.PrintSummary | cpp-runtime/src/Scheduler.cpp:511-526 | one closing record per task with its final counters |
| Scheduling.Scheduler.Run | cpp-runtime/src/Scheduler.cpp:34-70 | the exact error cases; otherwise a complete legal run from a proper start, its log followed by the closing records |
| RunFacts.ExecuteFrame | cpp-runtime/src/Scheduler.cpp:241-326 | a dispatch touches one task, releases it one period after its start, and is one of skip, failure and run |
| RunFacts.ShapeHolds | cpp-runtime/src/Scheduler.cpp:78-193 | configurations never change and time never runs backwards |
| Fairness.NoStarvation | cpp-runtime/src/Scheduler.cpp:78-193 | in every run, a due task waits for at most n-1 other dispatches in round robin and 2(n-1) otherwise, whatever the priorities |
| FairnessIsTight.BoundIsAttained | cpp-runtime/src/Scheduler.cpp:110-145 | a run of two tasks in priority mode in which one is overtaken 2(n-1) times: the bound cannot be lowered |
| ProcessorTime.WorkFitsTheDuration | cpp-runtime/src/Task.cpp:37-39 | in every run the sleep asked for has really passed, the runs' execution times are part of it, and those of all runs but the last add up to less than the configured duration |
| ProcessorTime.RestsOnlyWhenNothingIsDue | cpp-runtime/src/Scheduler.cpp:111-144 | in the priority and deadline modes the scheduler rests only at times when no task is due |
| Fairness.TurnsAreDistinctDueTasks | cpp-runtime/src/Scheduler.cpp:111-131 | the turns of a pass are exactly the due tasks, each once, in strict order |
| DispatchOrder.DispatchesTheLeast | cpp-runtime/src/Scheduler.cpp:154-191 | every dispatched task comes before all those still waiting: by release plus relative deadline, then priority number, then index, as they are at that time; in priority mode by priority number, then index |
| DispatchOrder.PassIsByKeys | cpp-runtime/src/Scheduler.cpp:110-191 | a pass lists exactly the tasks whose release has come at its snapshot, each once, ascending by these keys |
| DispatchOrder.PassServesItsSnapshot | cpp-runtime/src/Scheduler.cpp:111-144 | a pass dispatches exactly the tasks due at its snapshot, each once; one cut off by the end of time dispatches a prefix |
| DispatchOrder.CycleGivesTurnsInOrder | cpp-runtime/src/Scheduler.cpp:83-102 | in every round-robin cycle the k-th turn is that of the k-th task, which is dispatched exactly if its release has come at the reading of that turn |
| DispatchFacts.FailsExactly | cpp-runtime/src/Scheduler.cpp:195-239 | at every dispatch of every run the task is skipped exactly if it failed before, and otherwise fails exactly if faults are enabled, of the crash kind, aimed at it, and the time of the test is not before the starting time |
| DispatchFacts.SlowsExactly | cpp-runtime/src/FaultInjector.cpp:14-54 | every run is slowed, or spiked, exactly if a fault of that kind aimed at the task has started, and then asks for exactly the extra time more; its miss counter rises exactly on the two tests, and the watchdog inspects that counter |
| DispatchFacts.ReleasesByPeriod | cpp-runtime/src/Task.cpp:18-50 | every dispatch is made when the release has come and before the end of time, and puts the next release one period after its own time; without a run no counter moves |
| DispatchFacts.LosesExactly | cpp-runtime/src/FaultInjector.cpp:66-92 | in every run a message is lost exactly if the dropping fault has started, is aimed at its source or target, and the draw is within the probability |
| DispatchFacts.RefusesExactly | cpp-runtime/src/MessageBus.cpp:21-37 | in every run a message that is not lost is refused exactly if the LoggerTask has no queue or its queue holds as many messages as its configured limit |
| DispatchFacts.QueuesMoveExactly | cpp-runtime/src/MessageBus.cpp:21-56 | the queues change only by an accepted message, appended under the next id, and by a collected one, the oldest |
| DispatchFacts.WritesExactly | cpp-runtime/src/Scheduler.cpp:241-509 | the records that each dispatch of every run adds to the log, with every field given by the task, its counters, the fault, the alert or the queue it is about |
| Conservation.MessagesAreConserved | cpp-runtime/src/Scheduler.cpp:329-465 | at every moment the ids 1..N, one per run of a sender, split exactly into received, queued, refused and lost; received is a prefix of accepted; no queue exceeds its limit |
| Accounting.DispatchesAreAccounted | cpp-runtime/src/Scheduler.cpp:195-244 | per task, dispatches are runs plus failures plus skips and at most the duration over the period, rounded up; at most one failure, only of the target |
| Accounting.PeriodsInCovers | cpp-runtime/src/Task.cpp:45-50 | the bound is the least number of periods that covers the duration |
| Accounting.FailedTasksStayFrozen | cpp-runtime/src/Scheduler.cpp:198-244 | after failing, a task's counters never move and it sends and receives nothing for the rest of the run |
| Accounting.AcceptedMessagesAreBounded | cpp-runtime/src/Scheduler.cpp:342-344 | accepted messages are at most the LoggerTask's possible dispatches plus its queue limit |
| RunTrace.LogTellsTheRun | cpp-runtime/src/Scheduler.cpp:241-326 | the log tells of exactly the deeds of the dispatches made, in order |
| TextOrder.SortNames | ai-analyzer/app/analyze.py:215-215 | lists the elements of a set in ascending order, the only such listing |
| TextOrder.AscendingIsUnique | ai-analyzer/app/analyze.py:245-245 | a set of names has one ascending listing |
| ReadingFacts.BeforeExactly | ai-analyzer/app/analyze.py:215-215 | one name comes before another exactly if it is smaller at the first place they differ, or ends there |
| LogRecords.Counted | ai-analyzer/app/analyze.py:275-319 | a counter has exactly the keys that occur, each with its number of occurrences |
| MetricFacts.CountersCountRecords | ai-analyzer/app/analyze.py:275-319 | every counter of a health report holds the number of records with that type, severity, fault type, drop reason or task |
| HealthAnalyzer.CollectTaskMetrics | ai-analyzer/app/analyze.py:113-159 | one entry per task named in a completion or summary, gathered from that task's records |
| HealthAnalyzer.GatheredReports | ai-analyzer/app/analyze.py:132-150 | run and miss counts are upper bounds of the task's records that some record reaches |
| MetricFacts.DurationsTellTheRecords | ai-analyzer/app/analyze.py:113-159 | the metrics are of just the tasks that a completion or summary names; the longest duration is reached by a completion of the task and bounds them all, the average times their number is the sum of their durations, and the missed events are the flagged ones |
| MetricFacts.DurationIsLatestStamp | ai-analyzer/app/analyze.py:341-370 | the observed duration is the largest time stamp, and zero without any |
| MetricFacts.OpeningIsTheFirst | ai-analyzer/app/analyze.py:347-356 | name, mode and duration are those of the first record of a runtime's start |
| HealthAnalyzer.TotalMissesTake | ai-analyzer/app/analyze.py:168-171 | the sum of misses does not depend on the order of the tasks |
| HealthAnalyzer.ClassifyHealth | ai-analyzer/app/analyze.py:162-200 | the verdict from the counters and the sum of all tasks' misses |
| HealthAnalyzer.CollectRootCauses | ai-analyzer/app/analyze.py:203-271 | the causes in order, or the sentence that stands in for them |
| HealthAnalyzer.Analyze | ai-analyzer/app/analyze.py:274-374 | counters, metrics, verdict, causes, observed duration, and what the first record of a runtime's start tells |
| HealthFacts.NormalExactly | ai-analyzer/app/analyze.py:173-200 | any log is normal exactly when no record shows a failure, skip, timeout, recovery, fault, drop or miss |
| HealthFacts.UnstableExactly | ai-analyzer/app/analyze.py:173-189 | any log is unstable exactly on a severe record, three misses in all, or any miss with a slow-task fault |
| HealthFacts.VerdictNeverImproves | ai-analyzer/app/analyze.py:162-200 | more records never make the verdict milder |
| HealthFacts.CausesExactly | ai-analyzer/app/analyze.py:213-271 | a report lists exactly the causes its counters back, with their numbers |
| MetricFacts.CausesAreInOrder | ai-analyzer/app/analyze.py:213-271 | the causes are in one fixed order: misses by task, the four faults, full queues, intentional drops, then timeouts, recoveries, failures and skips, each by task |
| HealthFacts.FallbackExactly | ai-analyzer/app/analyze.py:265-269 | the two stand-in sentences: nothing detected exactly on quiet logs, no single cause exactly when all trouble is of an unlisted type or reason |
| TruthfulMetrics.MetricsTellTheTruth | ai-analyzer/app/analyze.py:113-159 | on the log of every run the metrics hold exactly the tasks with their real run and miss counters, and their sum is the number of missed runs |
| TruthfulMetrics.FlagVersusCount | cpp-runtime/src/Logger.cpp:91-103 | when the logged flag and the miss counter of a run differ, both ways |
| TruthfulFeatures.FeaturesTellTheTruth | ai-analyzer/app/anomaly_detector.py:105-152 | on the log of every run each of the detector's counters, but for the two that follow the logged deadline flag, is how often the dispatches did what it counts |
| TruthfulVerdict.VerdictIsTrue | ai-analyzer/app/analyze.py:162-200 | the verdict on the log of every run is the one its dispatches deserve |
| TruthfulVerdict.NormalMeansClean | ai-analyzer/app/analyze.py:265-271 | normal exactly when every dispatch was without miss, drop, fault, crash, skip and alert; the "no single root cause" sentence never appears on a run |
| FaultVerdict.SlowdownsCostDeadlines | cpp-runtime/src/FaultInjector.cpp:14-54 | if the extra time overruns the deadline, the target has at every moment missed at least as often as slow-downs were injected |
| FaultVerdict.FaultsForceUnstable | ai-analyzer/app/analyze.py:185-189 | then one slow-task firing or three CPU-spike firings make the verdict unstable |
| AnomalyWindows.SplitIntoWindows | ai-analyzer/app/anomaly_detector.py:69-98 | the windows with their bounds, one window for logs without stamps, an error for a non-positive length |
| AnomalyWindows.IndexIsQuotient | ai-analyzer/app/anomaly_detector.py:92-92 | counting whole windows is the quotient rounded down |
| AnomalyWindows.WindowsPartition | ai-analyzer/app/anomaly_detector.py:88-98 | every record lands in exactly one window, whose bounds contain its clamped time stamp |
| AnomalyWindows.WindowsKeepEveryRecord | ai-analyzer/app/anomaly_detector.py:88-98 | the windows together hold each record as often as the log |
| AnomalyWindows.WindowsKeepOrder | ai-analyzer/app/anomaly_detector.py:88-98 | the windows of a log in time order, put one after another, are the log |
| DetectorFacts.WindowsAreLaidOut | ai-analyzer/app/anomaly_detector.py:69-98 | windows of equal length from zero on, just enough for the latest stamp; a single one without stamps |
| DetectorFacts.WindowHolds | ai-analyzer/app/anomaly_detector.py:88-98 | a record is in the window whose stretch of time contains its stamp, a missing or negative one counting as zero |
| AnomalyFeatures.ExtractFeatures | ai-analyzer/app/anomaly_detector.py:101-160 | every feature of the records of a window |
| AnomalyFeatures.CountRecord | ai-analyzer/app/anomaly_detector.py:105-152 | a record adds one to exactly the counters it shows |
| DetectorFacts.FeaturesCountRecords | ai-analyzer/app/anomaly_detector.py:105-152 | each counting feature is the number of the window's records it counts |
| DetectorFacts.AverageTellsTheRecords | ai-analyzer/app/anomaly_detector.py:154-157 | the average duration times the number of completions is their total |
| DetectorFacts.LongestTellsTheRecords | ai-analyzer/app/anomaly_detector.py:154-158 | the longest duration is reached by a completion and bounds them all |
| AnomalyFeatures.FeaturesCombine | ai-analyzer/app/anomaly_detector.py:101-160 | features of joined logs: counts add, the longest duration is the longer, averages combine by weight |
| AnomalyFeatures.WindowFeaturesCombine | ai-analyzer/app/anomaly_detector.py:101-160 | the features of the windows of a log in time order combine to those of the log |
| Ranking.RankedIsDescending | ai-analyzer/app/anomaly_detector.py:197-204 | sorting by descending weight keeps equal weights in place |
| AnomalyScore.ScoreFeatures | ai-analyzer/app/anomaly_detector.py:163-206 | the score and the top drivers of the rule table |
| DetectorFacts.ShareMeans | ai-analyzer/app/anomaly_detector.py:180-189 | a rule adds its whole weight from its saturation on, a proportional part below it, and nothing for a value that is not positive |
| DetectorFacts.ScoreInFull | ai-analyzer/app/anomaly_detector.py:163-195 | the score written out for all thirteen features, with their weights and saturations |
| AnomalyScore.ScoreIsMonotone | ai-analyzer/app/anomaly_detector.py:180-195 | for any table with positive weights and saturations the score stays within 0 and 1 and never falls when features rise |
| AnomalyScore.DriversAreLargest | ai-analyzer/app/anomaly_detector.py:197-204 | the drivers are the up to four largest contributions, ties in rule order, ahead of all contributions left out |
| AnomalyScore.ClassIsMonotone | ai-analyzer/app/anomaly_detector.py:209-231 | raising features never makes the class milder |
| AnomalyReport.AnalyzeAnomalyWindows | ai-analyzer/app/anomaly_detector.py:234-301 | every window analyzed, the worst class, the number of anomalous windows, the highest score and the overall drivers |
| AnomalyReport.TopOverallIsCommonest | ai-analyzer/app/anomaly_detector.py:279-291 | the overall drivers are the up to five most frequent ones of the anomalous windows, ties by name |
| AnalyzersAgree.AlarmsAgree | ai-analyzer/app/anomaly_detector.py:209-220 | any log with a failure, timeout or recovery is unstable to both analyzers, for every window length |
| AnalyzersAgree.DetectorUnstableExactly | ai-analyzer/app/anomaly_detector.py:209-266 | any log is unstable to the detector exactly when it has a failure, timeout or recovery, or a window with three skips, three flagged completions or a score of at least 0.70 |
| DetectorFacts.DetectorNormalExactly | ai-analyzer/app/anomaly_detector.py:209-266 | any log is normal to the detector exactly when no window has an alarm, three skips, three flagged completions or a score of at least 0.25; so it is a warning exactly between the two |
| DetectorFacts.DetectorFigures | ai-analyzer/app/anomaly_detector.py:268-300 | the anomalous windows are exactly those, in order; the highest score is reached by a window and bounds them all; the overall drivers are ranked by how often the anomalous windows name them |
| AnalyzersAgree.SkipsSplitExactly | ai-analyzer/app/anomaly_detector.py:209-231 | on a log with a skip, unstable to the health analyzer, the verdicts differ exactly when none of that holds of the log and its windows |
| AnalyzersAgree.SkipsFollowFailures | cpp-runtime/src/Scheduler.cpp:198-238 | in a run a task is only skipped after it failed |
| AnalyzersAgree.VerdictsAgreeOnRuns | ai-analyzer/app/anomaly_detector.py:209-266 | on the log of a run any failure, skip or alert makes both verdicts unstable, although the window rule asks for three skips |
| AnalyzersAgree.SkipAloneSplitsThem | ai-analyzer/app/anomaly_detector.py:213-214 | an input on which they differ: one skip and nothing else |
| AnalyzersAgree.LogsAreInTimeOrder | cpp-runtime/src/Logger.cpp:384-397 | the log a run writes is in time order for the windows |
| CostAlerts.CostMonitor.FindCrossed | terraform/modules/cost-controls/lambda/handler.py:324-329 | the thresholds up to the cost and above the last one; the loop ends |
| CostAlerts.CostMonitor.CheckCosts | terraform/modules/cost-controls/lambda/handler.py:311-358 | which messages go out, one by one, what is stored and the result of a check; a failed message or a failed write leaves the stored state alone |
| CostAlerts.LadderMeans | terraform/modules/cost-controls/lambda/handler.py:325-329 | the thresholds are exactly those some number of increments reaches within the limit, ascending |
| CostAlerts.CrossedExactly | terraform/modules/cost-controls/lambda/handler.py:316-329 | a check crosses exactly the amounts of start plus any number of increments that the cost reaches and that exceed the amount stored for the month, or one increment below the start |
| CostAlerts.AboveTheLast | terraform/modules/cost-controls/lambda/handler.py:324-329 | the thresholds above the last one announced are exactly the ones beyond it |
| CostMonths.AnnouncedExactlyOnce | terraform/modules/cost-controls/lambda/handler.py:311-349 | over any sequence of checks, month by month, none of which fails: the thresholds announced in a month are exactly those up to its highest cost, each once, even with falling costs |
| CostMonths.FailuresAreMadeUp | terraform/modules/cost-controls/lambda/handler.py:331-349 | with failing checks: all thresholds up to the highest cost of the completed checks are announced, and none above the highest cost |
| CostMonths.RepeatsExactly | terraform/modules/cost-controls/lambda/handler.py:331-349 | a threshold is announced twice in a month exactly if a check announced something and then failed, and a later check of the month announced something |
| CostMonths.NonDecreasingIsMonthByMonth | terraform/modules/cost-controls/lambda/handler.py:312-317 | dates that never go back come month by month |
| JsonText.EscapeJsonString | cpp-runtime/src/Logger.cpp:399-432 | the escaped text, character by character |
| JsonText.EscapeRoundTrip | cpp-runtime/src/Logger.cpp:399-432 | decoding (section 7 of RFC 8259) undoes escaping up to the writer's own closing quote exactly for texts without an unhandled control character, and rejects all others |
| JsonText.EscapedHasNoBreak | cpp-runtime/src/Logger.cpp:416-421 | escaped text holds no raw line break |
| JsonText.RecordIsDecoded | cpp-runtime/src/Logger.cpp:24-43 | a record decodes to its members exactly when all its names and texts are encodable |
| LogFile.LogWriter.WriteRecord | cpp-runtime/src/Logger.cpp:392-397 | the file grows by the record and a line end |
| LogFile.LoadEvents | ai-analyzer/app/analyze.py:55-87 | the records of all lines that are not blank, or the number of the first line that is no record |
| ReadingFacts.LoadedExactly | ai-analyzer/app/analyze.py:55-87 | loading succeeds exactly if every line is blank or holds a record, and gives the records in order; otherwise the error names the first bad line |
| ReadingFacts.LinesExactly | ai-analyzer/app/analyze.py:65-66 | a line feed, a carriage return, or the two together end a line |
| ReadingFacts.StripExactly | ai-analyzer/app/analyze.py:67-67 | white space is cut at both ends of a line, and nothing else |
| ReadingFacts.HexEscapeIsDecoded | ai-analyzer/app/analyze.py:73-73 | a four-digit escape stands for the character of that code (section 7 of RFC 8259), except for surrogates |
| LogFile.FileSplits | ai-analyzer/app/analyze.py:65-70 | splitting the file on line ends gives exactly the texts of the records |
| LogFile.FileRoundTrip | ai-analyzer/app/analyze.py:55-87 | loading gives back exactly the records written, or fails at the first that holds an unhandled control character |
| LogFields.FieldsAreRead | cpp-runtime/src/Logger.cpp:24-382 | for every kind of event, what the analyzers look up in the written fields is what the event said |
| LogDetails.TaskStartedLine | cpp-runtime/src/Logger.cpp:62-81 | every member of the line in its place: task, period, deadline and priority |
| LogDetails.TaskCompletedLine | cpp-runtime/src/Logger.cpp:83-109 | likewise durations, deadline, flag and counters; the severity is that of the flag |
| LogDetails.MessageLines | cpp-runtime/src/Logger.cpp:111-184 | who sent what to whom under which id, the depth and limit of the queue, the remaining depth, and the reason of a drop |
| LogDetails.ExtraTimeLine | cpp-runtime/src/Logger.cpp:186-220 | the fault, its target and its extra time |
| LogDetails.LostMessageLine | cpp-runtime/src/Logger.cpp:278-300 | the message that a fault dropped |
| LogDetails.WatchdogTimeoutLine | cpp-runtime/src/Logger.cpp:302-321 | the task's misses and its streak of them |
| LogFields.FileTellsTheRecords | ai-analyzer/app/analyze.py:55-106 | loading a run's file and looking up its fields gives the records of its events |
| RunTexts.LogIsTame | cpp-runtime/src/Scheduler.cpp:241-509 | at every moment of every run the log behind its header names only the run's tasks and the fixed ends of messages, with known fault kinds and drop reasons, and no counter exceeds its length |
| RunTexts.LoadableExactly | ai-analyzer/app/analyze.py:55-87 | the file of a run with an encodable header loads exactly if every task's name can be encoded |
| PlainText.SplitJoined | backend/src/main/java/com/minirtos/playground/service/AnalyzerReportParser.java:40-46 | lines written one after another are split back |
| PlainText.DigitsRead | backend/src/main/java/com/minirtos/playground/service/AnalyzerReportParser.java:214-230 | the decimal digits of a number read as the number |
| ReportParser.ParseFirstInteger | backend/src/main/java/com/minirtos/playground/service/AnalyzerReportParser.java:210-230 | the first run of digits, nothing, or the error of a number too large |
| ReadingFacts.FirstIntegerExactly | backend/src/main/java/com/minirtos/playground/service/AnalyzerReportParser.java:210-230 | the first number is read whatever stands around it, up to 2147483647; a larger one is an error, and none is nothing |
| ReadingFacts.TrimExactly | backend/src/main/java/com/minirtos/playground/service/AnalyzerReportParser.java:42-43 | characters up to the space are cut at both ends of a text, and nothing else |
| ReportParser.MutableTaskMetric.Update | backend/src/main/java/com/minirtos/playground/service/AnalyzerReportParser.java:232-280 | the field a line sets, and none for unknown keys |
| ReadingFacts.IntegerExactly | backend/src/main/java/com/minirtos/playground/service/AnalyzerReportParser.java:266-272 | a whole number with an optional sign counts if it fits 32 bits, and otherwise as zero |
| ReportParser.Reader.Read | backend/src/main/java/com/minirtos/playground/service/AnalyzerReportParser.java:40-119 | what one line does to section, task and response |
| ReportParser.Parse | backend/src/main/java/com/minirtos/playground/service/AnalyzerReportParser.java:17-141 | the response for a whole text |
| ReportPrinter.Output.PrintReport | ai-analyzer/app/analyze.py:388-481 | the lines of the health report in order |
| ReportPrinter.Output.PrintCounter | ai-analyzer/app/analyze.py:377-385 | a counter with its heading, sorted, or the word none |
| ReportPrinter.Output.PrintAnomalyReport | ai-analyzer/app/anomaly_detector.py:304-340 | the lines of the anomaly report in order |
| LineReading.LineIsRead | backend/src/main/java/com/minirtos/playground/service/AnalyzerReportParser.java:40-119 | every kind of line the printer writes is read for what it means in the sections where it stands, task names with colons included |
| ReportWords.WordsAreFree | backend/src/main/java/com/minirtos/playground/service/AnalyzerReportParser.java:48-98 | the reader takes none of the writer's fixed words for a caption or a section title |
| NameReading.TaskNameExactly | backend/src/main/java/com/minirtos/playground/service/AnalyzerReportParser.java:48-119 | in the task summary a neat name not being read already is read as a task exactly when it is no section title and its line begins with no caption |
| NameReading.EntryExactly | backend/src/main/java/com/minirtos/playground/service/AnalyzerReportParser.java:48-105 | in a counter's section a neat key that is not there yet is read as itself exactly when it holds no colon and its line begins with no caption |
| NameReading.ReservedTaskIsLost | backend/src/main/java/com/minirtos/playground/service/AnalyzerReportParser.java:48-85 | a task named like a section title opens that section instead |
| NameReading.ReservedKeyIsMisread | backend/src/main/java/com/minirtos/playground/service/AnalyzerReportParser.java:87-98 | a counter key like any of the six captions overwrites that caption's value, in any section |
| UnreadNames.TaskNeverRead | backend/src/main/java/com/minirtos/playground/service/AnalyzerReportParser.java:48-119 | a task's name that is not free in this sense is read from no text at all |
| UnreadNames.CaptionNeverCounted | backend/src/main/java/com/minirtos/playground/service/AnalyzerReportParser.java:87-105 | nor is a counter's key like a caption counted anywhere in a report whose tasks are read and whose other keys hold no colons |
| ReportExactness.HarmlessExactly | backend/src/main/java/com/minirtos/playground/service/AnalyzerReportParser.java:87-98 | the lines of the fault counter leave the response as it is exactly if their numbers can be read and the last one to carry a caption repeats what the report says there |
| ReportExactness.HealthReportRoundTrip | ai-analyzer/app/analyze.py:377-481 | for every report of one-line texts and numbers in range, parsing the print gives back health, header, counters, task metrics, messages and root causes exactly if all task names and keys are free and the fault types harmless |
| ReportExactness.FullReportRoundTrip | ai-analyzer/app/anomaly_detector.py:304-323 | the same with the anomaly report behind it; the root causes are then the causes followed by the top drivers or none |
| ReportRoundTrip.TenthsAreNear | ai-analyzer/app/analyze.py:109-110 | the printed average is within half a tenth of the average |
| PrintedFacts.ShownCounts | ai-analyzer/app/analyze.py:275-284 | the web report's counters hold, by name, the numbers of the log's records of each type and severity |
| PrintedFacts.ShownMessages | ai-analyzer/app/analyze.py:434-443 | its message figures are the numbers of records of each kind and reason |
| PrintedFacts.ShownTask | ai-analyzer/app/analyze.py:411-430 | its task metrics: missed events and longest duration as in the records, the average within half a tenth |
| PrintedFacts.ShownHealth | ai-analyzer/app/analyze.py:162-200 | its verdict, word by word, by what the records say |
| PrintedFacts.TroubleTellsTheRecords | ai-analyzer/app/analyze.py:446-475 | the printed lines that the parser skips: timeouts, recoveries, failures and skips are the numbers of such records |
| PrintedFacts.SubPartTells | ai-analyzer/app/analyze.py:450-475 | under them, each task with such a record is listed in order with its number, and a list without tasks has no heading |
| PrintedFacts.DetectorFiguresTell | ai-analyzer/app/anomaly_detector.py:304-316 | the anomaly report prints the detector's window length, class, counts and highest score |
| PrintedFacts.DetectorWindowsTell | ai-analyzer/app/anomaly_detector.py:325-340 | and a line for every window in order with its bounds, class, score and drivers |
| PrintedFacts.HundredthsAreNear | ai-analyzer/app/anomaly_detector.py:315-338 | a printed score is within half a hundredth of the score |
| ReportTexts.DetectorIsPrintable | ai-analyzer/app/anomaly_detector.py:304-340 | the anomaly report of any log, for any window length, holds only texts the parser can take in |
| PrintableRuns.RunReportIsRegular | ai-analyzer/app/analyze.py:388-481 | the health report on the records of a run is regular with free keys and harmless faults, so that only task names decide whether it is read back |
| EndToEnd.Publish | ai-analyzer/app/analyze.py:566-575 | analysis and both prints, and the parse of exactly that text |
| EndToEnd.WebReportTellsTheTruth | backend/src/main/java/com/minirtos/playground/service/AnalyzerReportParser.java:17-141 | for every run on one-line texts whose log's numbers are in range, the web report shows the true verdict, exactly the tasks with their real counters, the real message figures and the header, if and only if every task's name is encodable and free; then it is in all its figures the report on the log's records |
| EndToEnd.RunAndPublish | cpp-runtime/src/main.cpp:41-113 | the same as one program: run, log file, loading, analysis, prints, parse; it fails to run in exactly the source's error cases |

## Left out

- Threads, real sleeping, standard output and the file system: a clock that answers with any later time and a list of log lines stand for them.
- The random generator of `shouldDropMessage`: any draw from 1 to 100.
- Reading and validating the JSON configuration; the checked record is a precondition. `check_interval_ms` drives nothing and is absent.
- Scheduling.Scheduler.Run: does not model 32-bit overflow of counters, ids and millisecond sums, which the source's `int` and `long` could reach only in runs of years.
- Equal task names: the loader accepts them, the proofs require them distinct.
- Message payloads and type names are the two constant pairs the runtime sends.
- LogFile.LoadEvents: records are flat objects of numbers, texts and truth values written without white space; nested values, fractions, nulls and surrogate pairs in `\u` escapes are not modelled.
- Python's `int()` on texts with underscores or inner spaces, and `float` values in `as_int`.
- HealthAnalyzer.Analyze: a `duration_seconds` that is no JSON number, which no runtime writes, counts as missing.
- Floating-point rounding: averages and scores are exact; one-decimal and two-decimal texts round halves up.
- ReportParser.ParseFirstInteger: only ASCII digits count as digits.
- ReportParser.MutableTaskMetric.Update: decimal numbers in exponent, hexadecimal or named form read as zero here; the printer writes none.
- The ML classifier, its features and its section of the output.
- CostAlerts.CostMonitor.CheckCosts: the cost query, the phone messages' wording and the stored observation time.
- The rest of the cost-control lambda, the Spring controllers and persistence, and the front end.
