/**
 * The flush path (`saveApcuData`) and the event handler of the logger as
 * functions on the shared state. A flush of a stale generation happens at
 * most once per (project, stale bucket): the first process to create the
 * lock key for that bucket wins, advances the watermark and drains.
 */
module Flush {
  import opened Php
  import opened Apcu
  import opened Keys
  import opened Aggregation
  import opened Dicts
  import opened Drain

  /**
   * Readings taken from the machine while flushing, passed in: the process
   * memory (`_getProcessMemoryUsage`), the time the drain took, and the six
   * system samples (cpu, load average, memory used, memory installed, free
   * and total disk).
   */
  datatype Readings = Readings(
    memory: int, loggingTime: int,
    cpu: int, load: int, memoryUsage: int, memoryMax: int, diskFree: int, diskTotal: int)

  /** The logger's configuration as the handler sees it. */
  datatype Context = Context(
    project: string, tag: string, logPath: string,
    currentId: int, isEven: bool, enableSystemMetrics: bool)

  function Prefix(c: Context): string {
    TagPrefix(c.project, c.isEven)
  }

  /** The watermark: the stored bucket id, or the current id when none was stored. */
  function WatermarkOf(s: Store, c: Context): int {
    var wk := WatermarkKey(c.project, c.isEven);
    if wk in s then NumberAt(s, wk) else c.currentId
  }

  /** Whether this call wins the flush of the stale generation. */
  predicate Wins(s: Store, c: Context) {
    var id := WatermarkOf(s, c);
    id != c.currentId && LockKey(c.project, id) !in s
  }

  /** `incrementApcuBaseMetric` applied to a whole state. */
  function Bumped(w: World, c: Context, name: string, v: int): World {
    World(IncrementBaseMetric(w.apcu, Prefix(c), c.tag, name, v), w.logs)
  }

  /** `collectSystemMetrics`: six base-metric increments. */
  function SystemSample(w: World, c: Context, rd: Readings): World {
    var w1 := Bumped(w, c, "system_cpu_usage", rd.cpu);
    var w2 := Bumped(w1, c, "system_load_average", rd.load);
    var w3 := Bumped(w2, c, "system_memory_usage", rd.memoryUsage);
    var w4 := Bumped(w3, c, "system_memory_max", rd.memoryMax);
    var w5 := Bumped(w4, c, "system_disk_free_space", rd.diskFree);
    Bumped(w5, c, "system_disk_total_space", rd.diskTotal)
  }

  /** The state right after the election: the watermark created if absent, and, for the winner, the lock taken and the watermark advanced. */
  function Elected(s: Store, c: Context): Store {
    var wk := WatermarkKey(c.project, c.isEven);
    var s1 := if wk in s then s else s[wk := Number(c.currentId)];
    if Wins(s, c) then s1[LockKey(c.project, WatermarkOf(s, c)) := Flag(true)][wk := Number(c.currentId)] else s1
  }

  /** What the winner does after the election: drain generation `id` into its file, then log its own cost. */
  function Flushed(w: World, c: Context, id: int, rd: Readings): World {
    CostLogged(SaveToFile(w, Prefix(c), LogFile(c.logPath, c.project, id)), c, rd)
  }

  /** The end of the winner's part: the flush's memory and time, then the system samples if enabled. */
  function CostLogged(w: World, c: Context, rd: Readings): World {
    var logged := Bumped(Bumped(w, c, "logging_max_memory", rd.memory), c, "logging_execution_time", rd.loggingTime);
    if c.enableSystemMetrics then SystemSample(logged, c, rd) else logged
  }

  /** `saveApcuData`. */
  function SaveApcuData(w: World, c: Context, rd: Readings): World {
    var s1 := Elected(w.apcu, c);
    if !Wins(w.apcu, c) then World(s1, w.logs)
    else Flushed(World(s1, w.logs), c, WatermarkOf(w.apcu, c), rd)
  }

  /** `processEventHandler` for one project. Unknown event types, `UPDATE_METRIC` among them, change nothing. */
  function Handle(w: World, c: Context, eventType: string, metrics: Dict, rd: Readings): World {
    if eventType == "PROCESS_START" then
      Bumped(SaveApcuData(w, c, rd), c, "requests_hit_count", 1)
    else if eventType == "ROUTE_START" then
      Bumped(w, c, "requests_start_count", 1)
    else if eventType == "ROUTE_FINISH_SUCCESS" then
      var w1 := Bumped(w, c, "requests_finish_success_count", 1);
      World(IncrementRequest(w1.apcu, Prefix(c), c.tag, metrics, true), w1.logs)
    else if eventType == "ROUTE_FINISH_FAIL" then
      var w1 := Bumped(w, c, "requests_finish_fail_count", 1);
      World(IncrementRequest(w1.apcu, Prefix(c), c.tag, metrics, false), w1.logs)
    else w
  }

  // ---------------------------------------------------------------- election

  /** With no watermark for the parity, the current id is stored and nothing is flushed. */
  lemma FirstCallOnlyStoresWatermark(w: World, c: Context, rd: Readings)
    requires WatermarkKey(c.project, c.isEven) !in w.apcu
    ensures SaveApcuData(w, c, rd) == World(w.apcu[WatermarkKey(c.project, c.isEven) := Number(c.currentId)], w.logs)
  {
  }

  /** Nothing but the watermark changes unless the call wins the election. */
  lemma LosersChangeOnlyTheWatermark(w: World, c: Context, rd: Readings)
    requires !Wins(w.apcu, c)
    ensures var r := SaveApcuData(w, c, rd);
      && r.logs == w.logs
      && forall k :: k != WatermarkKey(c.project, c.isEven) ==> SameAt(w.apcu, r.apcu, k)
  {
  }

  /** A key no increment and no drain ever writes: it ends in neither `}` (counters) nor `s` (name lists). */
  predicate OutsideGenerations(k: string) {
    |k| > 0 && k[|k| - 1] != '}' && k[|k| - 1] != 's'
  }

  lemma WatermarkAndLockOutside(c: Context, id: int)
    ensures OutsideGenerations(WatermarkKey(c.project, c.isEven)) && OutsideGenerations(LockKey(c.project, id))
  {
  }

  lemma BumpedKeeps(w: World, c: Context, name: string, v: int, k: string)
    requires OutsideGenerations(k)
    ensures SameAt(w.apcu, Bumped(w, c, name, v).apcu, k)
  {
  }

  /** What follows the drain (logging and system increments) leaves such keys alone. */
  lemma AfterDrainKeeps(w: World, c: Context, rd: Readings, k: string)
    requires OutsideGenerations(k)
    ensures SameAt(w.apcu, CostLogged(w, c, rd).apcu, k)
  {
    var w1 := Bumped(w, c, "logging_max_memory", rd.memory);
    var logged := Bumped(w1, c, "logging_execution_time", rd.loggingTime);
    BumpedKeeps(w, c, "logging_max_memory", rd.memory, k);
    BumpedKeeps(w1, c, "logging_execution_time", rd.loggingTime, k);
    if c.enableSystemMetrics {
      var v1 := Bumped(logged, c, "system_cpu_usage", rd.cpu);
      var v2 := Bumped(v1, c, "system_load_average", rd.load);
      var v3 := Bumped(v2, c, "system_memory_usage", rd.memoryUsage);
      var v4 := Bumped(v3, c, "system_memory_max", rd.memoryMax);
      var v5 := Bumped(v4, c, "system_disk_free_space", rd.diskFree);
      var v6 := Bumped(v5, c, "system_disk_total_space", rd.diskTotal);
      BumpedKeeps(logged, c, "system_cpu_usage", rd.cpu, k);
      BumpedKeeps(v1, c, "system_load_average", rd.load, k);
      BumpedKeeps(v2, c, "system_memory_usage", rd.memoryUsage, k);
      BumpedKeeps(v3, c, "system_memory_max", rd.memoryMax, k);
      BumpedKeeps(v4, c, "system_disk_free_space", rd.diskFree, k);
      BumpedKeeps(v5, c, "system_disk_total_space", rd.diskTotal, k);
      assert SystemSample(logged, c, rd) == v6;
    }
  }

  /** A drain leaves such keys alone. */
  lemma DrainKeeps(w: World, prefix: string, file: LogFile, k: string)
    requires OutsideGenerations(k)
    ensures SameAt(w.apcu, SaveToFile(w, prefix, file).apcu, k)
  {
    var slots := AllSlots(BaseMetrics, MetricsRead(w.apcu, prefix), TagsRead(w.apcu, prefix));
    var ks := KeysOf(prefix, slots);
    forall i | 0 <= i < |ks| ensures ks[i] != k {
      var key := CounterKey(prefix, slots[i].name, slots[i].tag);
      assert ks[i] == key && key[|key| - 1] == '}';
    }
    assert k !in ks && k != TagsKey(prefix) && k != MetricsKey(prefix);
    SaveToFileFrame(w, prefix, file);
  }

  /**
   * The winner is the call that finds a stale watermark and an absent lock;
   * it leaves the lock taken and the watermark at the current id, even after
   * draining and counting its own logging metrics.
   */
  lemma WinnerAdvancesWatermark(w: World, c: Context, rd: Readings)
    requires Wins(w.apcu, c)
    ensures var r := SaveApcuData(w, c, rd);
      && NumberAt(r.apcu, WatermarkKey(c.project, c.isEven)) == c.currentId
      && LockKey(c.project, WatermarkOf(w.apcu, c)) in r.apcu
  {
    var wk := WatermarkKey(c.project, c.isEven);
    var id := WatermarkOf(w.apcu, c);
    var lk := LockKey(c.project, id);
    var s1 := Elected(w.apcu, c);
    assert NumberAt(s1, wk) == c.currentId && lk in s1;
    var drained := SaveToFile(World(s1, w.logs), Prefix(c), LogFile(c.logPath, c.project, id));
    WatermarkAndLockOutside(c, id);
    DrainKeeps(World(s1, w.logs), Prefix(c), LogFile(c.logPath, c.project, id), wk);
    DrainKeeps(World(s1, w.logs), Prefix(c), LogFile(c.logPath, c.project, id), lk);
    AfterDrainKeeps(drained, c, rd, wk);
    AfterDrainKeeps(drained, c, rd, lk);
  }

  /** A lock that is present for the stale bucket stops every later flush of that bucket. */
  lemma LockedBucketIsNotFlushedAgain(w: World, c: Context, rd: Readings)
    requires LockKey(c.project, WatermarkOf(w.apcu, c)) in w.apcu
    ensures !Wins(w.apcu, c)
    ensures SaveApcuData(w, c, rd).logs == w.logs
  {
  }

  /** Once the winner has flushed, a second call in the same bucket finds the watermark current and flushes nothing. */
  lemma NoSecondFlush(w: World, c: Context, rd: Readings)
    requires Wins(w.apcu, c)
    ensures !Wins(SaveApcuData(w, c, rd).apcu, c)
  {
    WinnerAdvancesWatermark(w, c, rd);
  }
}
