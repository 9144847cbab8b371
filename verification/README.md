# php-metrics in Dafny

This is a model of the metrics pipeline of `falc0shka/php-metrics`, with proofs about it. The pipeline has three parts.

- The `PhpMetrics` facade receives request events (`PROCESS_START`, `ROUTE_START`, `ROUTE_FINISH_SUCCESS`, `ROUTE_FINISH_FAIL`, `UPDATE_METRIC`). It gates them on an enable flag and filters them against the allowed list.
- The `Collector` folds each event into a per-request map of named metrics. Examples are `max_memory`, `execution_time`, `<metric>`, `<metric>_value`, `<metric>_time` and `<metric>_time_max`.
- The `APCU_Logger` counts the events in a shared APCu store, in two alternating generations.
  - A minute-long bucket id (`floor(time / 60)`) picks the generation by its parity (`EVEN` / `ODD`).
  - Every counter key carries the project, the parity, the metric name and the tag.
  - The first request that finds its parity's watermark stale, and wins the lock of the stale bucket, drains its own parity's generation. That generation holds the counts of the stale bucket, the previous bucket of the same parity.
  - The drain visits the base metrics of `BaseLogger::$baseMetrics` and the outcome counters of the listed request metrics, under every listed tag. It writes each non-zero one as a `name,tag,value` row to the stale bucket's log file and deletes it.
  - Three counters the logger increments are not in that list: `requests_finish_fail_count`, `system_disk_free_space` and `system_disk_total_space`. No drain reports or deletes them (see Findings).
  - With all-projects metrics on, every event is also counted under the project `all`.

The model is split by the program's own structure.

| module | file | models |
|---|---|---|
| `Php` | php.dfy | PHP string truthiness, `strtolower`, `max`, integer-to-string rendering |
| `ProjectName` | project_name.dfy | `BaseLogger::formatProjectName`, stage by stage |
| `Dicts` | dict.dfy | an insertion-ordered PHP array of integers |
| `Apcu` | apcu.dfy | the APCu store and the log directory; `Host` is the mutable world the logger calls into |
| `Keys` | keys.dfy | bucket ids, parity, and the key formats (tags list, metric-name list, counter, watermark, lock) |
| `Aggregation` | aggregation.dfy | `updateTagsStore`, `updateMetricsStore`, `incrementApcuBaseMetric`, `incrementApcuRequestMetrics` as functions on the store |
| `Drain` | drain.dfy | `saveApcuToFile` as a function: the slots it visits in loop order, and what one visit does |
| `Flush` | flush.dfy | `saveApcuData` (watermark, lock election, drain, logging cost, system sample) and `processEventHandler` |
| `Events` | events.dfy | `setProject` and `processEvent` with its all-projects pass |
| `Loggers` | logger.dfy | class `ApcuLogger`: the logger's fields and its methods, each proved equal to the functions above |
| `Collectors` | collector.dfy | `Collector::processEvent` as a function, and class `Collector` whose methods are proved against it |
| `Dispatch` | dispatcher.dfy | class `PhpMetrics`: `dispatchEvent`, the flag toggles, the setters and the event wrappers |

Each stateful method of the logger, the collector and the facade is stated against a specification function of the old state. The properties are then proved about those functions. Examples:
- the drain empties exactly the counters it reports;
- a second drain of a generation writes nothing;
- once a bucket is flushed, a later call in the same bucket does not flush it again;
- a sanitised project name is a fixed point of `formatProjectName`;
- with all-projects metrics on, an event is counted under `all` and then under the project the restore leaves. The restore goes through `setProject`, so for the falsy project "" it leaves `all`, and the event is counted twice under `all` (see Findings).

## Model

| member | source | states |
|---|---|---|
| Php.Lower | src/Collectors/Collector.php:48 | `strtolower` keeps the length and lower-cases exactly the ASCII upper-case letters |
| Php.IntToString | src/Loggers/APCU_Logger.php:160 | an interpolated integer renders as an optional minus sign and decimal digits |
| Php.IntRoundTrip | src/Loggers/APCU_Logger.php:160 | the value written in a log row parses back to the counter's value |
| Php.Max | src/Collectors/Collector.php:75 | `max` is at least both arguments and equals one of them |
| ProjectName.Trim | src/Loggers/BaseLogger.php:102 | `trim` leaves no trimmed character at either end and keeps an already trimmed string |
| ProjectName.TrimIsInfix | src/Loggers/BaseLogger.php:102 | `trim` removes only trimmed characters, and only from the two ends |
| ProjectName.ReplaceDisallowed | src/Loggers/BaseLogger.php:103 | every character outside `[a-zA-Z0-9_]` becomes a space and the others stay |
| ProjectName.CollapseWhitespace | src/Loggers/BaseLogger.php:105 | the non-whitespace characters stay, in order; every whitespace character left is a space; no two are adjacent; a leading run stays a leading space |
| ProjectName.CollapseWord | src/Loggers/BaseLogger.php:105 | a stretch without whitespace is left unchanged |
| ProjectName.CollapsesWhitespaceRun | src/Loggers/BaseLogger.php:105 | a maximal whitespace run between two non-whitespace stretches becomes exactly one space, and the stretches are collapsed on their own |
| ProjectName.SpacesToUnderscores | src/Loggers/BaseLogger.php:106 | every space becomes `_` and nothing else changes |
| ProjectName.Truncate | src/Loggers/BaseLogger.php:107 | the result is the prefix of length `n`, or the whole string when it is not longer than `n` |
| ProjectName.FormatProjectName | src/Loggers/BaseLogger.php:100-109 | the result is at most 20 characters of `[a-z0-9_]` |
| ProjectName.FormatIsSqueeze | src/Loggers/BaseLogger.php:100-109 | the four middle stages are one squeeze: lower-case the allowed characters and turn each run of others into one `_` |
| ProjectName.CollapsesRun | src/Loggers/BaseLogger.php:103-106 | a run of disallowed characters between two allowed ones becomes exactly one `_` |
| ProjectName.FixedPoint | src/Loggers/BaseLogger.php:100-109 | a name already of the sanitised form is returned unchanged |
| ProjectName.Idempotent | src/Loggers/BaseLogger.php:100-109 | sanitising twice is the same as sanitising once |
| ProjectName.AllIsFixed | src/Loggers/BaseLogger.php:100-109 | `all` sanitises to itself |
| Dicts.Dict.Put | src/Collectors/Collector.php:51-52 | assignment to a PHP array: the key gets the value, a new key goes to the end, others keep value and order |
| Dicts.PutTwice | src/Collectors/Collector.php:51-52 | assigning a key twice equals assigning it the second value once |
| Dicts.Empty | src/Collectors/Collector.php:12-22 | the empty array has no keys |
| Apcu.Appended | src/Loggers/APCU_Logger.php:161 | appending rows to one file adds them at its end and leaves every other file alone |
| Apcu.AppendedTwice | src/Loggers/APCU_Logger.php:161 | two appends to one file equal one append of both row lists |
| Apcu.Host.Exists | src/Loggers/APCU_Logger.php:102 | `apcu_exists` reports key membership and changes nothing |
| Apcu.Host.FetchNumber | src/Loggers/APCU_Logger.php:106 | `apcu_fetch` of a counter returns its value (0 when absent) and changes nothing |
| Apcu.Host.Put | src/Loggers/APCU_Logger.php:103 | `apcu_store` sets one key and nothing else |
| Apcu.Host.Add | src/Loggers/APCU_Logger.php:111 | `apcu_add` sets an absent key, reports whether it did, and never overwrites |
| Apcu.Host.Delete | src/Loggers/APCU_Logger.php:162 | `apcu_delete` removes one key and nothing else |
| Apcu.Host.Entry | src/Loggers/APCU_Logger.php:151 | `apcu_entry` returns the stored value, or stores and returns the default when the key is absent |
| Apcu.Host.AppendLine | src/Loggers/APCU_Logger.php:161 | `file_put_contents(..., FILE_APPEND)` adds one line at the end of one file |
| Keys.Bucket | src/Loggers/APCU_Logger.php:33 | the bucket id is the minute that contains the time |
| Keys.BucketUnique | src/Loggers/APCU_Logger.php:33 | only one bucket id contains a given time |
| Keys.NextMinuteFlipsParity | src/Loggers/APCU_Logger.php:33-36 | one minute later is the next bucket, which belongs to the other generation |
| Keys.TagsKey | src/Loggers/APCU_Logger.php:192-195 | the tag-list key is longer than the generation prefix and ends in `gs` |
| Keys.MetricsKey | src/Loggers/APCU_Logger.php:197-200 | the metric-name-list key is longer than the generation prefix and ends in `cs`, so it is never the tag-list key |
| Keys.CounterKey | src/Loggers/APCU_Logger.php:215 | a counter key has the length of its parts plus the separators and ends in `}` |
| Keys.WatermarkKey | src/Loggers/APCU_Logger.php:96-100 | the watermark key ends in `d`, so it is no counter and no list |
| Keys.LockKey | src/Loggers/APCU_Logger.php:110 | the lock key ends in a digit, so it is no counter, list or watermark |
| Keys.KeysShareThePrefix | src/Loggers/APCU_Logger.php:438-441 | every key of a generation starts with that generation's prefix |
| Keys.CounterKeyInjective | src/Loggers/APCU_Logger.php:215 | within one generation, a counter key built from a brace-free tag determines the name and the tag |
| Keys.KindsDiffer | src/Loggers/APCU_Logger.php:192-215 | counters, the two lists, watermarks and locks never share a key |
| Aggregation.AddName | src/Loggers/APCU_Logger.php:443-451 | adding a name appends it only when absent, so the list gains exactly that name and stays duplicate-free |
| Aggregation.AddNameIdempotent | src/Loggers/APCU_Logger.php:443-451 | recording a name twice equals recording it once |
| Aggregation.AddNames | src/Loggers/APCU_Logger.php:234-236 | recording several names gives the union, extending the old list |
| Aggregation.RecordName | src/Loggers/APCU_Logger.php:443-461 | `updateTagsStore` / `updateMetricsStore` change only the list key, and not even that when the name is present |
| Aggregation.RecordNames | src/Loggers/APCU_Logger.php:233-236 | recording the request's metric names changes only the metric-name list |
| Aggregation.IncrementBase | src/Loggers/APCU_Logger.php:216-217 | `apcu_entry` with default 0 followed by `apcu_store` of the sum adds the amount to one counter (absent counts as 0) and changes no other key |
| Aggregation.EnsureCounter | src/Loggers/APCU_Logger.php:243 | `apcu_entry(key, 0)` leaves every value as it reads and creates the key |
| Aggregation.IncrementBaseMetric | src/Loggers/APCU_Logger.php:209-218 | the counter grows by the amount, the tag is recorded, and nothing else changes |
| Aggregation.Bump | src/Loggers/APCU_Logger.php:242-246 | an outcome counter grows by the metric's value when its outcome matches and is created at 0 otherwise |
| Aggregation.CounterNameInjective | src/Loggers/APCU_Logger.php:215 | under one prefix and tag, different names have different counters |
| Aggregation.OutcomeKeyInjective | src/Loggers/APCU_Logger.php:242 | different request metrics have different outcome counters |
| Aggregation.OutcomesDiffer | src/Loggers/APCU_Logger.php:242 | a `success_` counter is never a `fail_` counter |
| Aggregation.BumpAllFrame | src/Loggers/APCU_Logger.php:241-247 | one outcome pass changes only the counters of that outcome |
| Aggregation.BumpAllHits | src/Loggers/APCU_Logger.php:241-247 | one outcome pass adds each metric's value once to that metric's counter, or 0 for the other outcome |
| Aggregation.BumpOutcomesFrame | src/Loggers/APCU_Logger.php:239-248 | both outcome passes change only outcome counters of the request's metrics |
| Aggregation.TwoPasses | src/Loggers/APCU_Logger.php:239-240 | the outcome loop is the success pass followed by the fail pass |
| Aggregation.NamedKeepsCounters | src/Loggers/APCU_Logger.php:231-236 | recording tag and names touches no counter |
| Aggregation.RequestIncrement | src/Loggers/APCU_Logger.php:228-249 | after a request, its outcome's counter of each metric grew by the metric's value and the other outcome's counter did not change |
| Aggregation.RequestFrame | src/Loggers/APCU_Logger.php:228-249 | a request increment changes only the two lists and the request's outcome counters |
| Aggregation.RequestRecordsNames | src/Loggers/APCU_Logger.php:228-236 | after a request, the tag and every metric name are recorded in the generation's lists |
| Drain.TagsCountRows | src/Loggers/APCU_Logger.php:183-187 | the tag-count row is written exactly when the generation saw a tag |
| Drain.KeysOf | src/Loggers/APCU_Logger.php:158 | each visited slot is looked up under its own counter key |
| Drain.TagSlots | src/Loggers/APCU_Logger.php:157 | the innermost loop visits the name under each tag in order |
| Drain.DrainConcat | src/Loggers/APCU_Logger.php:156-180 | draining two slot runs in a row is draining their concatenation |
| Drain.TagSlotsMember | src/Loggers/APCU_Logger.php:157 | the tag loop visits exactly the pairs of that name with a listed tag |
| Drain.BaseSlotsMember | src/Loggers/APCU_Logger.php:156-157 | the base loops visit exactly the base metrics under the listed tags |
| Drain.OutcomeNames | src/Loggers/APCU_Logger.php:174 | a reported request name is `success_` or `fail_` followed by the metric |
| Drain.OutcomeSlotsBoth | src/Loggers/APCU_Logger.php:169-171 | the outcome loop reports success before fail |
| Drain.RequestSlotsMember | src/Loggers/APCU_Logger.php:168-171 | the request loops visit exactly the outcome names of listed metrics under listed tags |
| Drain.TagSlotsDistinct | src/Loggers/APCU_Logger.php:157 | a duplicate-free tag list gives no repeated visit |
| Drain.BaseSlotsDistinct | src/Loggers/APCU_Logger.php:156-165 | the base loops repeat no visit |
| Drain.RequestSlotsDistinct | src/Loggers/APCU_Logger.php:168-180 | the request loops repeat no visit |
| Drain.BaseMetricsApart | src/Loggers/BaseLogger.php:16-27 | no base metric is a `success_` or `fail_` name, and none repeats |
| Drain.AllSlotsDistinct | src/Loggers/APCU_Logger.php:156-180 | a whole drain visits no slot twice |
| Drain.AllSlotsTags | src/Loggers/APCU_Logger.php:156-180 | every visit is a listed tag with a base or reported request name |
| Drain.KeysDistinct | src/Loggers/APCU_Logger.php:158-172 | distinct visits with brace-free tags look up distinct keys |
| Drain.NoTagsNoSlots | src/Loggers/APCU_Logger.php:156-180 | with no tags listed the drain visits nothing |
| Drain.DrainEmpties | src/Loggers/APCU_Logger.php:159-163 | after the visits every visited counter reads 0, other keys are untouched, and rows are only appended |
| Drain.DrainExact | src/Loggers/APCU_Logger.php:156-180 | with distinct keys, the drain deletes exactly the non-zero visited counters and writes exactly their rows in visit order |
| Drain.WithLists | src/Loggers/APCU_Logger.php:150-153 | `apcu_entry` on the two lists creates them empty when absent and changes nothing else |
| Drain.SaveToFileRows | src/Loggers/APCU_Logger.php:133-190 | `saveApcuToFile` appends exactly the non-zero rows and the tag count to its file, touches no other file, and leaves the store without those counters and the tag list |
| Drain.SlotKeysDistinct | src/Loggers/APCU_Logger.php:156-180 | with sound lists the drain's keys are distinct |
| Drain.SaveToFileEmpties | src/Loggers/APCU_Logger.php:159-189 | after a drain every visited counter reads 0 and the tag list is gone |
| Drain.ReportingEmpties | src/Loggers/APCU_Logger.php:156-189 | the same holds whatever list of base metrics the drain reports |
| Drain.SaveToFileFrame | src/Loggers/APCU_Logger.php:153-189 | a drain keeps the metric-name list and every key it did not visit |
| Drain.SecondDrainWritesNothing | src/Loggers/APCU_Logger.php:133-190 | draining a generation again writes no row to any file |
| Drain.NeverReportedSurvives | src/Loggers/APCU_Logger.php:156-180 | a counter under a name the drain never reports survives the drain |
| Drain.UnreportedCounters | src/Loggers/BaseLogger.php:16-27 | `requests_finish_fail_count` and the two disk counters are such names |
| Drain.BaseListsDisagree | src/Loggers/BaseLogger.php:16-27 | of the base metrics the logger increments, exactly `requests_finish_fail_count` and the two disk counters are not reported, and the reported `requests_finish_exception_count` is never incremented |
| Drain.AsWrittenKeepsUnreportedCounters | src/Loggers/APCU_Logger.php:156-165 | as written, the failed-request counter and the two disk counters keep their values through every drain |
| Drain.CorrectedDrainEmptiesCountedMetrics | src/Loggers/APCU_Logger.php:156-165 | corrected, a drain that reports every incremented base metric leaves each of them at 0 under every listed tag |
| Flush.FirstCallOnlyStoresWatermark | src/Loggers/APCU_Logger.php:102-104 | with no watermark for the parity, only the current id is stored |
| Flush.LosersChangeOnlyTheWatermark | src/Loggers/APCU_Logger.php:96-112 | a call that does not win leaves the files and every key except the watermark unchanged |
| Flush.DrainKeeps | src/Loggers/APCU_Logger.php:133-190 | a drain does not touch watermarks or locks |
| Flush.WinnerAdvancesWatermark | src/Loggers/APCU_Logger.php:110-130 | the winner leaves the lock taken and the watermark at the current id |
| Flush.LockedBucketIsNotFlushedAgain | src/Loggers/APCU_Logger.php:110-111 | a bucket whose lock exists is not flushed again and no file changes |
| Flush.NoSecondFlush | src/Loggers/APCU_Logger.php:106-116 | after a flush, another call in the same bucket does not win |
| Events.SetProject | src/Loggers/BaseLogger.php:88-93 | a falsy name is ignored and any other becomes a sanitised name |
| Events.AllProjectsName | src/Loggers/APCU_Logger.php:50 | `setProject('all')` sets the project `all` |
| Events.RestoreAgreesForTruthyNames | src/Loggers/APCU_Logger.php:49-52 | the written restore returns a truthy sanitised project |
| Events.UnknownEventsChangeNothing | src/Loggers/APCU_Logger.php:60-90 | the logger ignores event types without a case, `UPDATE_METRIC` included, both as written and corrected |
| Events.BlankProjectIsFalsy | src/Loggers/BaseLogger.php:88-109 | `setProject(" ")` stores the falsy project "" |
| Events.RestoreLosesFalsyProject | src/Loggers/APCU_Logger.php:49-52 | the written restore leaves the project "" on `all` |
| Events.ProjectsApart | src/Loggers/APCU_Logger.php:438-441 | two projects never share a counter |
| Events.RouteStartBumps | src/Loggers/APCU_Logger.php:70-73 | a route start adds 1 to `requests_start_count` |
| Events.BumpedCounters | src/Loggers/APCU_Logger.php:209-218 | a base increment adds to its own project's counter and not to another project's |
| Events.AsWrittenCountsTwiceUnderAll | src/Loggers/APCU_Logger.php:42-58 | as written, a route start under project "" adds 2 under `all` and nothing under "" |
| Events.ProcessCountsOnceEach | src/Loggers/APCU_Logger.php:42-58 | corrected, a route start adds 1 under `all` and 1 under the logger's own project |
| Events.AsWrittenAgreesForTruthyNames | src/Loggers/APCU_Logger.php:42-58 | for a truthy sanitised project the written restore keeps the project, and the written `processEvent` equals the corrected one |
| Loggers.ApcuLogger.constructor | src/Loggers/APCU_Logger.php:18-23 | defaults: project `main`, tag `UNKNOWN`, no log path, age 0, both switches off, the current bucket and its parity |
| Loggers.ApcuLogger.InitApcuLogger | src/Loggers/APCU_Logger.php:30-37 | sets the bucket id and parity from the time and nothing else |
| Loggers.ApcuLogger.SetTag | src/Loggers/BaseLogger.php:56-59 | only the tag changes |
| Loggers.ApcuLogger.EnableSystemMetrics | src/Loggers/BaseLogger.php:63-66 | only the system-metrics switch changes, to on |
| Loggers.ApcuLogger.EnableAllProjectsMetrics | src/Loggers/BaseLogger.php:68-71 | only the all-projects switch changes, to on |
| Loggers.ApcuLogger.SetLogPath | src/Loggers/BaseLogger.php:73-76 | only the log path changes |
| Loggers.ApcuLogger.SetLogMaxAge | src/Loggers/BaseLogger.php:83-86 | only the maximum age changes |
| Loggers.ApcuLogger.SetProject | src/Loggers/BaseLogger.php:88-93 | only the project changes, to `Events.SetProject` of the old one |
| Loggers.ApcuLogger.UpdateTagsStore | src/Loggers/APCU_Logger.php:443-451 | the store becomes `RecordName` on the tag list |
| Loggers.ApcuLogger.UpdateMetricsStore | src/Loggers/APCU_Logger.php:453-461 | the store becomes `RecordName` on the metric-name list |
| Loggers.ApcuLogger.IncrementApcuBaseMetric | src/Loggers/APCU_Logger.php:209-218 | the store becomes `IncrementBaseMetric` of the old one |
| Loggers.ApcuLogger.UpdateMetricsStoreAll | src/Loggers/APCU_Logger.php:233-236 | the loop over the request's metric names leaves `RecordNames` |
| Loggers.ApcuLogger.BumpCounter | src/Loggers/APCU_Logger.php:242-246 | one outcome counter step is `Bump` |
| Loggers.ApcuLogger.BumpOutcome | src/Loggers/APCU_Logger.php:241-247 | one outcome pass over the metrics is `BumpAll` |
| Loggers.ApcuLogger.IncrementApcuRequestMetrics | src/Loggers/APCU_Logger.php:228-249 | the store becomes `IncrementRequest` of the old one |
| Loggers.ApcuLogger.DrainOne | src/Loggers/APCU_Logger.php:158-163 | one lookup is `Visit`: a non-zero counter is written as a row and deleted |
| Loggers.ApcuLogger.DrainTags | src/Loggers/APCU_Logger.php:157-164 | the tag loop is the drain of `TagSlots` |
| Loggers.ApcuLogger.DrainBase | src/Loggers/APCU_Logger.php:156-165 | the base loops are the drain of `BaseSlots` |
| Loggers.ApcuLogger.DrainOutcomes | src/Loggers/APCU_Logger.php:169-179 | the outcome loop for one metric is the drain of `OutcomeSlots` |
| Loggers.ApcuLogger.DrainRequest | src/Loggers/APCU_Logger.php:168-180 | the request loops are the drain of `RequestSlots` |
| Loggers.ApcuLogger.ReadLists | src/Loggers/APCU_Logger.php:150-153 | returns the two lists and leaves the store as `WithLists` |
| Loggers.ApcuLogger.DrainAll | src/Loggers/APCU_Logger.php:156-180 | all loops together are the drain of `AllSlots` |
| Loggers.ApcuLogger.SaveApcuToFile | src/Loggers/APCU_Logger.php:133-190 | the state becomes `SaveToFile` of the old state, for the file of the given bucket |
| Loggers.ApcuLogger.CollectSystemMetrics | src/Loggers/APCU_Logger.php:422-436 | the six sampled values are added as base metrics |
| Loggers.ApcuLogger.Elect | src/Loggers/APCU_Logger.php:96-115 | returns the watermark and whether this call won, and leaves the store `Elected` |
| Loggers.ApcuLogger.FlushGeneration | src/Loggers/APCU_Logger.php:117-129 | the winner's drain and cost accounting is `Flushed` |
| Loggers.ApcuLogger.LogFlushCost | src/Loggers/APCU_Logger.php:120-128 | the flush's memory and time, then the system samples if enabled, are `CostLogged` |
| Loggers.ApcuLogger.SaveApcuData | src/Loggers/APCU_Logger.php:92-131 | the state becomes `Flush.SaveApcuData` of the old state |
| Loggers.ApcuLogger.ProcessEventHandler | src/Loggers/APCU_Logger.php:60-90 | the state becomes `Handle` of the old state, and the settings are unchanged |
| Loggers.ApcuLogger.EnterAllProjects | src/Loggers/APCU_Logger.php:49-50 | returns the current project and switches to `all` |
| Loggers.ApcuLogger.LeaveAllProjects | src/Loggers/APCU_Logger.php:53 | `setProject($currentProject)` leaves the project at the written restore of the saved one, and nothing else changes |
| Loggers.ApcuLogger.AllProjectsPass | src/Loggers/APCU_Logger.php:48-54 | the pass under `all` is `Handle` under project `all`, with its own samples; afterwards only the project differs from the start, and it is the written restore of the saved one |
| Loggers.ApcuLogger.ProcessEvent | src/Loggers/APCU_Logger.php:42-58 | with no log path it fails with `MissingLogPath` and changes nothing. Otherwise the state becomes `ProcessAsWritten` of the old state, with separate samples for the two passes, and only the project can change: to the written restore when all-projects metrics are on |
| Collectors.Initial | src/Collectors/Collector.php:12-22 | the request map starts as `max_memory` and `execution_time`, both 0 |
| Collectors.Duration | src/Collectors/Collector.php:66-70 | an explicit execution time wins; otherwise the time since the start when the start is not in the future, and 0 when it is |
| Collectors.DerivedNamesDiffer | src/Collectors/Collector.php:50-75 | a metric and its `_value`, `_time`, `_time_max` entries are four different keys, none `max_memory` |
| Collectors.Add | src/Collectors/Collector.php:51-52 | one entry grows by the amount and the rest stay |
| Collectors.AddTiming | src/Collectors/Collector.php:61-75 | `_time` grows by the duration, `_time_max` becomes the larger of the two, the rest stay |
| Collectors.UpdateMetric | src/Collectors/Collector.php:47-77 | existing keys keep their order, and `max_memory` is untouched unless it is the metric itself |
| Collectors.CollectEvent | src/Collectors/Collector.php:37-85 | fails exactly for `UPDATE_METRIC` without a metric name; otherwise keeps the keys and leaves `max_memory` at least its old value and the current memory |
| Collectors.UpdateMetricEntries | src/Collectors/Collector.php:48-76 | the count grows by 1, `_value` by the value when given, and the timing entries only when a time is given |
| Collectors.UpdateMetricFrame | src/Collectors/Collector.php:48-76 | every entry other than the metric's four stays |
| Collectors.CollectUpdate | src/Collectors/Collector.php:47-84 | `UPDATE_METRIC` counts the lower-cased name, sets `max_memory` to the larger of its old value and the current memory, and changes nothing else |
| Collectors.CollectUpdateMaxMemoryName | src/Collectors/Collector.php:47-84 | a metric named `max_memory` is counted and then overwritten: the entry ends as the larger of its old value plus one and the current memory |
| Collectors.CollectFinish | src/Collectors/Collector.php:43-46 | a route finish sets `execution_time` to the time since the process start |
| Collectors.CollectOther | src/Collectors/Collector.php:38-42 | other events only raise `max_memory` |
| Collectors.Collector.constructor | src/Collectors/Collector.php:29-32 | the map starts as `Initial` and the start time is the current time |
| Collectors.Collector.Increase | src/Collectors/Collector.php:51-52 | the map becomes `Add` of the old map |
| Collectors.Collector.RecordTiming | src/Collectors/Collector.php:61-75 | the map becomes `AddTiming` of the old map |
| Collectors.Collector.CountMetric | src/Collectors/Collector.php:48-76 | the map becomes `UpdateMetric` of the old map |
| Collectors.Collector.ProcessEvent | src/Collectors/Collector.php:37-85 | returns `CollectEvent` of the old state and stores it on success; on error the map is unchanged |
| Dispatch.MetricParams | src/PhpMetrics.php:171-175 | `updateMetric` sets the metric name and keeps the other parameters |
| Dispatch.PhpMetrics.constructor | src/PhpMetrics.php:52-57 | metrics disabled, a fresh collector at `Initial`, a fresh logger at its defaults |
| Dispatch.PhpMetrics.DispatchEvent | src/PhpMetrics.php:72-85 | a disallowed event, or any event while disabled, changes nothing. Otherwise the collector runs first, and a collector error stops before the logger. The logger then gets the collector's map: a missing log path is an error, and otherwise the state becomes `ProcessAsWritten` and the logger's project the written restore |
| Dispatch.PhpMetrics.EnableMetrics | src/PhpMetrics.php:87-92 | the flag is on |
| Dispatch.PhpMetrics.DisableMetrics | src/PhpMetrics.php:94-99 | the flag is off |
| Dispatch.PhpMetrics.EnableSystemMetrics | src/PhpMetrics.php:101-106 | forwards to the logger; only its system-metrics switch changes |
| Dispatch.PhpMetrics.SetProject | src/PhpMetrics.php:108-113 | forwards to the logger's `setProject` |
| Dispatch.PhpMetrics.SetLogPath | src/PhpMetrics.php:115-120 | forwards to the logger's `setLogPath` |
| Dispatch.PhpMetrics.SetLogMaxAge | src/PhpMetrics.php:122-127 | forwards to the logger's `setLogMaxAge` |
| Dispatch.PhpMetrics.SetTag | src/PhpMetrics.php:129-134 | forwards to the logger's `setTag` |
| Dispatch.PhpMetrics.EnableAllProjectsMetrics | src/PhpMetrics.php:136-141 | forwards to the logger; only its all-projects switch changes |
| Dispatch.PhpMetrics.ProcessStart | src/PhpMetrics.php:151-154 | dispatches `PROCESS_START` with no parameters |
| Dispatch.PhpMetrics.RouteStart | src/PhpMetrics.php:156-159 | dispatches `ROUTE_START` with no parameters |
| Dispatch.PhpMetrics.RouteFinishSuccess | src/PhpMetrics.php:161-164 | dispatches `ROUTE_FINISH_SUCCESS` with no parameters |
| Dispatch.PhpMetrics.RouteFinishFail | src/PhpMetrics.php:166-169 | dispatches `ROUTE_FINISH_FAIL` with no parameters |
| Dispatch.PhpMetrics.UpdateMetric | src/PhpMetrics.php:171-175 | dispatches `UPDATE_METRIC` with the metric name added to the parameters |

## Left out

- Numbers are integers. `microtime(true)`, `round(..., 2)`, `memory_get_usage` and `getrusage` values are passed in as integers, and floating point is not modelled.
- Time is a parameter. `time()` and `microtime()` are the `now` arguments, and the samples taken while flushing are a `Readings` value. Each of the two passes of an all-projects event gets its own `Readings`, since each call of `saveApcuData` samples afresh. The process memory, the drain's own duration, the cpu, load, memory and disk samplers of `collectSystemMetrics` (APCU_Logger.php:341-436) are not modelled as code.
- Log file names are not built. `date()`-built directories and file names are identified by `LogFile(logPath, project, bucket)`.
  - The hour/minute naming is a fixed function of the bucket, so the file is the same.
  - The converse does not hold in the source. The directory and the file name are built in local time by `date()` from `$apcuId * 60` (APCU_Logger.php:135, 148), so when the local clock repeats an hour (a daylight-saving fall-back) two buckets get the same file name. The model treats every bucket as its own file, so "touches no other file" in Drain.SaveToFileRows holds for this abstraction only.
  - `mkdir`, file permissions and file locking are not modelled.
- The lock's 3600-second TTL is not modelled. A lock stays until the store forgets it.
- `getLogs` (APCU_Logger.php:251-339) is not modelled. It zips and deletes old log files and serves them over HTTP, which is file-system and network work.
- The `logMaxAge` value is stored only.
- The singleton is not modelled: `getInstance`, `__clone`, `__wakeup`, and the construction through class-name strings. `PhpMetrics` is an ordinary object.
- The interface files are not modelled as code. As written, their declarations clash with the classes, and each clash is a fatal error when PHP declares the class:
  - `Collector::processEvent` returns `array` (Collector.php:37), but `CollectorInterface::processEvent` declares `void` (CollectorInterface.php:17).
  - `Collector` does not implement `getStandardMetrics`, which `CollectorInterface` declares (CollectorInterface.php:19).
  - `BaseLogger::processEvent` takes three parameters (BaseLogger.php:54), but `LoggerInterface::processEvent` declares two (LoggerInterface.php:17). `APCU_Logger` extends `BaseLogger`, so it cannot be declared either.
- Collectors.Collector.constructor: the model treats `Collector`, `BaseLogger` and `APCU_Logger` as classes that load. As written, the declaration errors above stop them from loading, so `PhpMetrics` cannot build its collector and logger, and no event reaches the modelled code. The model gives the behaviour the method bodies define.
- `getCurrentTimestamp` is not modelled. Nor are the getters `getProject`, `getLogPath` and `getRequestMetrics`, which are read as fields.
- `BaseLogger::processEvent` is an empty stub that the APCu logger overrides. The constructor's `standardMetrics` and `customMetrics` are never read by the modelled code.
- Loggers.ApcuLogger.constructor: does not model the failure of the source's constructor. `APCU_Logger::__construct` (APCU_Logger.php:20) calls `parent::__construct()` without the `array $standardMetrics` that `BaseLogger::__construct` requires (BaseLogger.php:46). PHP throws `ArgumentCountError` there, so `new APCU_Logger` fails. The model builds the logger with its defaults instead.
- Dispatch.PhpMetrics.constructor: does not model that failure either. `PhpMetrics::__construct` builds the logger at PhpMetrics.php:56, so `PhpMetrics::getInstance()` fails with the same error. It also passes the collector's map to a constructor that takes no parameter, which PHP ignores.
- The uninitialised `logPath` property reads as "" for `empty()`, and the model starts it as "".
- `in_array` on tag and metric names is modelled as strict comparison. PHP's loose comparison would treat numeric strings such as `"1"` and `"01"` as one tag.
- Strings are sequences of Unicode characters. Byte strings that are not valid UTF-8 are not modelled. For such a project name, `preg_replace` with the `/u` modifier returns NULL (BaseLogger.php:103), and `strtolower(NULL)` throws a TypeError under `strict_types` (BaseLogger.php:3, 104), so `setProject` throws. In the model, Events.SetProject and ProjectName.FormatProjectName are total.
- Integer-like array keys are not modelled. PHP converts numeric-string keys of the request map to integers, and the model keeps every key a string.
- Counters are assumed to hold numbers. A counter key holding a list or a flag reads as 0.
- There is no concurrency. Each call runs alone on the shared store, so interleavings between PHP workers, and the race between `apcu_exists` and `apcu_store`, are not modelled. The lock election is modelled as `apcu_add` on one store.
- Keys.CounterKeyInjective: requires brace-free tags. A tag containing `{` can make two different (name, tag) pairs share a key.
  - Drain.KeysDistinct, Drain.SaveToFileRows and Drain.NeverReportedSurvives carry the same hypothesis, through `ListsSound`.
- Drain.SaveToFileRows: requires the two lists to be duplicate-free, which holds because every write goes through `AddName`. It is not proved as an invariant of the whole store.
- Collectors.CollectUpdate: requires the lower-cased metric name to differ from `max_memory`. That name is counted and then overwritten by the memory step, and Collectors.CollectUpdateMaxMemoryName states that case.
- Collectors.UpdateMetric: states key order and `max_memory` only. The per-entry effects are in Collectors.UpdateMetricEntries and Collectors.UpdateMetricFrame.

## Findings

| source | as written | input that shows it | evidently intended | confidence | as-written member | corrected member |
|---|---|---|---|---|---|---|
| src/Loggers/APCU_Logger.php:48-54 | after the all-projects pass the saved project is put back through `setProject`, which ignores a falsy name | `setProject(" ")` stores the project "" (BaseLogger.php:88-109); then, with all-projects metrics and a log path set, `routeStart()` | the event is counted once under `all` and once under the saved project | not executed | Events.AsWrittenCountsTwiceUnderAll | Events.ProcessCountsOnceEach |
| src/Loggers/BaseLogger.php:16-27 | the drain reports the base metrics of `$baseMetrics`, which lacks `requests_finish_fail_count` (incremented at APCU_Logger.php:83) and the two disk counters (APCU_Logger.php:433, 435), and lists `requests_finish_exception_count`, which nothing increments | `routeFinishFail()` with a log path set, then a flush of that bucket | every counter the logger increments is written to the log file and reset by the drain | not executed | Drain.AsWrittenKeepsUnreportedCounters | Drain.CorrectedDrainEmptiesCountedMetrics |

In the first case the restore leaves the logger on `all` (Events.RestoreLosesFalsyProject). The second pass then counts the route start under `all` again, and the project "" gets nothing. Every later event does the same. `Loggers.ApcuLogger.ProcessEvent` and `Dispatch.PhpMetrics.DispatchEvent` model the program as written: their state is `Events.ProcessAsWritten`, and the logger's project ends as `Events.ProjectAfter`. The corrected `Events.Process` assigns the saved project back directly. For a truthy sanitised project the two agree (Events.AsWrittenAgreesForTruthyNames), so the class differs from the corrected definition only for the project "".

In the second case the failed-request count and the disk samples pile up in the store across every flush and never reach a log file, and the exception count is always absent from it. The logger keeps the drain as written (`Drain.SaveToFile`, which reports `BaseMetrics`). The corrected drain is `Drain.SaveToFileReporting` with `Drain.CountedBaseMetrics`, the twelve base metrics the logger increments.
