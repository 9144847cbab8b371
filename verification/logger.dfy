/**
 * The APCu logger object (BaseLogger together with APCU_Logger): its
 * configuration fields, its setters, and the methods that update the
 * shared store and the log files. Each store-changing method is proved to
 * leave the host in exactly the state the matching function of
 * Aggregation, Drain, Flush or Events describes.
 */
module Loggers {
  import opened Php
  import opened Apcu
  import opened Keys
  import opened ProjectName
  import opened Aggregation
  import opened Dicts
  import opened Drain
  import opened Flush
  import opened Events

  /** Every field of the logger. */
  datatype Config = Config(
    project: string, tag: string, logPath: string, logMaxAge: int,
    enableSystemMetrics: bool, enableAllProjectsMetrics: bool,
    currentApcuId: int, isEven: bool)

  class ApcuLogger {
    var project: string
    var tag: string
    var logPath: string
    var logMaxAge: int
    var enableSystemMetrics: bool
    var enableAllProjectsMetrics: bool
    var currentApcuId: int
    var isEven: bool
    /** The machine whose APCu store and log directory the logger writes to. */
    const host: Host

    function Cfg(): Config
      reads this
    {
      Config(project, tag, logPath, logMaxAge, enableSystemMetrics, enableAllProjectsMetrics, currentApcuId, isEven)
    }

    function Ctx(): Context
      reads this
    {
      Context(project, tag, logPath, currentApcuId, isEven, enableSystemMetrics)
    }

    /** `getApcuTagPrefix`. */
    function ApcuTagPrefix(): string
      reads this
    {
      TagPrefix(project, isEven)
    }

    /** A logger with the default configuration, started at time `now`. */
    constructor(now: int, host: Host)
      ensures this.host == host
      ensures Cfg() == Config("main", "UNKNOWN", "", 0, false, false, Bucket(now), IsEvenId(Bucket(now)))
    {
      project := "main";
      tag := "UNKNOWN";
      logPath := "";
      logMaxAge := 0;
      enableSystemMetrics := false;
      enableAllProjectsMetrics := false;
      this.host := host;
      new;
      InitApcuLogger(now);
    }

    /** `initApcuLogger`: the bucket of `now` and its parity. */
    method InitApcuLogger(now: int)
      modifies this
      ensures Cfg() == old(Cfg()).(currentApcuId := Bucket(now), isEven := IsEvenId(Bucket(now)))
    {
      currentApcuId := Bucket(now);
      isEven := currentApcuId % 2 == 0;
    }

    method SetTag(t: string)
      modifies this
      ensures Cfg() == old(Cfg()).(tag := t)
    {
      tag := t;
    }

    method SetLogPath(path: string)
      modifies this
      ensures Cfg() == old(Cfg()).(logPath := path)
    {
      logPath := path;
    }

    method SetLogMaxAge(days: int)
      modifies this
      ensures Cfg() == old(Cfg()).(logMaxAge := days)
    {
      logMaxAge := days;
    }

    method EnableSystemMetrics()
      modifies this
      ensures Cfg() == old(Cfg()).(enableSystemMetrics := true)
    {
      enableSystemMetrics := true;
    }

    method EnableAllProjectsMetrics()
      modifies this
      ensures Cfg() == old(Cfg()).(enableAllProjectsMetrics := true)
    {
      enableAllProjectsMetrics := true;
    }

    /** `setProject`: a falsy name is ignored; any other is stored sanitised. */
    method SetProject(p: string)
      modifies this
      ensures Cfg() == old(Cfg()).(project := Events.SetProject(old(project), p))
    {
      if !Falsy(p) {
        project := FormatProjectName(p);
      }
    }

    /** `updateTagsStore`. */
    method UpdateTagsStore(t: string)
      modifies host
      ensures host.apcu == RecordName(old(host.apcu), TagsKey(ApcuTagPrefix()), t) && host.logs == old(host.logs)
    {
      var key := TagsKey(TagPrefix(project, isEven));
      var stored := host.Entry(key, Names([]));
      var list := NamesOf(stored);
      if t !in list {
        host.Put(key, Names(list + [t]));
      }
    }

    /** `updateMetricsStore`. */
    method UpdateMetricsStore(m: string)
      modifies host
      ensures host.apcu == RecordName(old(host.apcu), MetricsKey(ApcuTagPrefix()), m) && host.logs == old(host.logs)
    {
      var key := MetricsKey(TagPrefix(project, isEven));
      var stored := host.Entry(key, Names([]));
      var list := NamesOf(stored);
      if m !in list {
        host.Put(key, Names(list + [m]));
      }
    }

    /** `incrementApcuBaseMetric`. */
    method IncrementApcuBaseMetric(name: string, v: int)
      modifies host
      ensures host.apcu == IncrementBaseMetric(old(host.apcu), ApcuTagPrefix(), tag, name, v) && host.logs == old(host.logs)
    {
      var prefix := TagPrefix(project, isEven);
      UpdateTagsStore(tag);
      ghost var tagged := host.apcu;
      var key := CounterKey(prefix, name, tag);
      var current := host.Entry(key, Number(0));
      host.Put(key, Number(NumberOf(current) + v));
      assert host.apcu == IncrementBase(tagged, key, v);
    }

    /** The first loop of `incrementApcuRequestMetrics`: every metric name recorded in the metrics list. */
    method UpdateMetricsStoreAll(names: seq<string>)
      modifies host
      ensures host.apcu == RecordNames(old(host.apcu), MetricsKey(ApcuTagPrefix()), names) && host.logs == old(host.logs)
    {
      for i := 0 to |names|
        invariant host.apcu == RecordNames(old(host.apcu), MetricsKey(ApcuTagPrefix()), names[..i]) && host.logs == old(host.logs)
      {
        UpdateMetricsStore(names[i]);
        assert names[..i + 1][..i] == names[..i];
      }
      assert names[..|names|] == names;
    }

    /** The body of the outcome loop: the counter is created at 0 if absent, and `amount` added when `apply`. */
    method BumpCounter(key: string, amount: int, apply: bool)
      modifies host
      ensures host.apcu == Bump(old(host.apcu), key, amount, apply) && host.logs == old(host.logs)
    {
      var current := host.Entry(key, Number(0));
      if apply {
        host.Put(key, Number(NumberOf(current) + amount));
      }
    }

    /** One pass of the outcome loop of `incrementApcuRequestMetrics`: every `<outcome>_<metric>` counter touched, and added to when `apply`. */
    method BumpOutcome(metrics: Dict, o: string, apply: bool)
      modifies host
      ensures host.apcu == BumpAll(old(host.apcu), ApcuTagPrefix(), tag, o, apply, metrics, metrics.keys) && host.logs == old(host.logs)
    {
      var prefix := TagPrefix(project, isEven);
      var names := metrics.keys;
      for k := 0 to |names|
        invariant host.apcu == BumpAll(old(host.apcu), prefix, tag, o, apply, metrics, names[..k]) && host.logs == old(host.logs)
      {
        var m := names[k];
        var key := CounterKey(prefix, OutcomeName(o, m), tag);
        BumpCounter(key, metrics.Get(m), apply);
        assert names[..k + 1][..k] == names[..k];
      }
      assert names[..|names|] == names;
    }

    /** `incrementApcuRequestMetrics`. */
    method IncrementApcuRequestMetrics(metrics: Dict, success: bool)
      modifies host
      ensures host.apcu == IncrementRequest(old(host.apcu), ApcuTagPrefix(), tag, metrics, success) && host.logs == old(host.logs)
    {
      UpdateTagsStore(tag);
      UpdateMetricsStoreAll(metrics.keys);
      ghost var named := host.apcu;
      for j := 0 to |Outcomes|
        invariant host.apcu == BumpOutcomes(named, ApcuTagPrefix(), tag, metrics, success, Outcomes[..j]) && host.logs == old(host.logs)
      {
        var o := Outcomes[j];
        BumpOutcome(metrics, o, (success && o == "success") || (!success && o == "fail"));
        assert Outcomes[..j + 1][..j] == Outcomes[..j];
      }
      assert Outcomes[..|Outcomes|] == Outcomes;
    }

    /** One lookup of the drain: a non-zero counter is written as a row and deleted. */
    method DrainOne(prefix: string, file: LogFile, sl: Slot)
      modifies host
      ensures var v := NumberAt(old(host.apcu), KeyOf(prefix, sl));
        && host.apcu == (if v != 0 then old(host.apcu) - {KeyOf(prefix, sl)} else old(host.apcu))
        && host.logs == Appended(old(host.logs), file, if v != 0 then [Line(sl.name, sl.tag, v)] else [])
    {
      var key := CounterKey(prefix, sl.name, sl.tag);
      var v := host.FetchNumber(key);
      if v != 0 {
        host.AppendLine(file, Line(sl.name, sl.tag, v));
        host.Delete(key);
      }
    }

    /** The innermost drain loop: counter `name` under every tag, rows appended to `file`. */
    method DrainTags(prefix: string, file: LogFile, name: string, tags: seq<string>, ghost logs0: Logs, ghost st: Drained)
      returns (ghost st': Drained)
      modifies host
      requires host.apcu == st.store && host.logs == Appended(logs0, file, st.rows)
      ensures st' == DrainSlots(st, prefix, TagSlots(name, tags))
      ensures host.apcu == st'.store && host.logs == Appended(logs0, file, st'.rows)
    {
      st' := st;
      for j := 0 to |tags|
        invariant st' == DrainSlots(st, prefix, TagSlots(name, tags[..j]))
        invariant host.apcu == st'.store && host.logs == Appended(logs0, file, st'.rows)
      {
        var sl := Slot(name, tags[j]);
        DrainOne(prefix, file, sl);
        AppendedTwice(logs0, file, st'.rows, Visit(st', prefix, sl).rows[|st'.rows|..]);
        DrainStep(st, prefix, TagSlots(name, tags[..j]), sl);
        TagSlotsStep(name, tags, j);
        st' := Visit(st', prefix, sl);
      }
      assert tags[..|tags|] == tags;
    }

    /** The base-metric loop of the drain. */
    method DrainBase(prefix: string, file: LogFile, tags: seq<string>, ghost logs0: Logs, ghost st: Drained)
      returns (ghost st': Drained)
      modifies host
      requires host.apcu == st.store && host.logs == Appended(logs0, file, st.rows)
      ensures st' == DrainSlots(st, prefix, BaseSlots(BaseMetrics, tags))
      ensures host.apcu == st'.store && host.logs == Appended(logs0, file, st'.rows)
    {
      st' := st;
      for i := 0 to |BaseMetrics|
        invariant st' == DrainSlots(st, prefix, BaseSlots(BaseMetrics[..i], tags))
        invariant host.apcu == st'.store && host.logs == Appended(logs0, file, st'.rows)
      {
        ghost var before := st';
        st' := DrainTags(prefix, file, BaseMetrics[i], tags, logs0, st');
        DrainConcat(st, prefix, BaseSlots(BaseMetrics[..i], tags), TagSlots(BaseMetrics[i], tags));
        BaseSlotsStep(BaseMetrics, tags, i);
      }
      assert BaseMetrics[..|BaseMetrics|] == BaseMetrics;
    }

    /** The outcome loop of the drain for one request metric. */
    method DrainOutcomes(prefix: string, file: LogFile, metric: string, tags: seq<string>, ghost logs0: Logs, ghost st: Drained)
      returns (ghost st': Drained)
      modifies host
      requires host.apcu == st.store && host.logs == Appended(logs0, file, st.rows)
      ensures st' == DrainSlots(st, prefix, OutcomeSlots(metric, Outcomes, tags))
      ensures host.apcu == st'.store && host.logs == Appended(logs0, file, st'.rows)
    {
      st' := st;
      for k := 0 to |Outcomes|
        invariant st' == DrainSlots(st, prefix, OutcomeSlots(metric, Outcomes[..k], tags))
        invariant host.apcu == st'.store && host.logs == Appended(logs0, file, st'.rows)
      {
        var name := OutcomeName(Outcomes[k], metric);
        st' := DrainTags(prefix, file, name, tags, logs0, st');
        DrainConcat(st, prefix, OutcomeSlots(metric, Outcomes[..k], tags), TagSlots(name, tags));
        OutcomeSlotsStep(metric, Outcomes, tags, k);
      }
      assert Outcomes[..|Outcomes|] == Outcomes;
    }

    /** The request-metric loop of the drain. */
    method DrainRequest(prefix: string, file: LogFile, metrics: seq<string>, tags: seq<string>, ghost logs0: Logs, ghost st: Drained)
      returns (ghost st': Drained)
      modifies host
      requires host.apcu == st.store && host.logs == Appended(logs0, file, st.rows)
      ensures st' == DrainSlots(st, prefix, RequestSlots(metrics, tags))
      ensures host.apcu == st'.store && host.logs == Appended(logs0, file, st'.rows)
    {
      st' := st;
      for i := 0 to |metrics|
        invariant st' == DrainSlots(st, prefix, RequestSlots(metrics[..i], tags))
        invariant host.apcu == st'.store && host.logs == Appended(logs0, file, st'.rows)
      {
        st' := DrainOutcomes(prefix, file, metrics[i], tags, logs0, st');
        DrainConcat(st, prefix, RequestSlots(metrics[..i], tags), OutcomeSlots(metrics[i], Outcomes, tags));
        RequestSlotsStep(metrics, tags, i);
      }
      assert metrics[..|metrics|] == metrics;
    }

    /** The two `apcu_entry` reads that open the drain: the tag list and the metric list, created empty when absent. */
    method ReadLists(prefix: string) returns (tags: seq<string>, metrics: seq<string>)
      modifies host
      ensures tags == TagsRead(old(host.apcu), prefix) && metrics == MetricsRead(old(host.apcu), prefix)
      ensures host.apcu == WithLists(old(host.apcu), prefix) && host.logs == old(host.logs)
    {
      var tagsStored := host.Entry(TagsKey(prefix), Names([]));
      tags := NamesOf(tagsStored);
      KindsDiffer(prefix, prefix, "", "", "", true, 0);
      var metricsStored := host.Entry(MetricsKey(prefix), Names([]));
      metrics := NamesOf(metricsStored);
    }

    /** Both drain loops: every slot of `AllSlots` looked up in order. */
    method DrainAll(prefix: string, file: LogFile, tags: seq<string>, metrics: seq<string>) returns (ghost d: Drained)
      modifies host
      ensures d == DrainSlots(Drained(old(host.apcu), []), prefix, AllSlots(BaseMetrics, metrics, tags))
      ensures host.apcu == d.store && host.logs == Appended(old(host.logs), file, d.rows)
    {
      ghost var st0 := Drained(host.apcu, []);
      assert host.logs == Appended(old(host.logs), file, []);
      ghost var st1 := DrainBase(prefix, file, tags, old(host.logs), st0);
      d := DrainRequest(prefix, file, metrics, tags, old(host.logs), st1);
      DrainConcat(st0, prefix, BaseSlots(BaseMetrics, tags), RequestSlots(metrics, tags));
    }

    /** `saveApcuToFile(apcuId)`: drains the current parity's generation into the stale bucket's file. */
    method SaveApcuToFile(apcuId: int)
      modifies host
      ensures host.State() == SaveToFile(old(host.State()), ApcuTagPrefix(), LogFile(logPath, project, apcuId))
    {
      var prefix := TagPrefix(project, isEven);
      var file := LogFile(logPath, project, apcuId);
      var tags, metrics := ReadLists(prefix);
      ghost var d := DrainAll(prefix, file, tags, metrics);
      var count := |tags|;
      if count > 0 {
        host.AppendLine(file, Line("logging_tags_count", "UNKNOWN", count));
      }
      AppendedTwice(old(host.logs), file, d.rows, TagsCountRows(count));
      host.Delete(TagsKey(prefix));
    }

    /** `collectSystemMetrics`, with the six samples passed in. */
    method CollectSystemMetrics(rd: Readings)
      modifies host
      ensures host.State() == SystemSample(old(host.State()), Ctx(), rd)
    {
      IncrementApcuBaseMetric("system_cpu_usage", rd.cpu);
      IncrementApcuBaseMetric("system_load_average", rd.load);
      IncrementApcuBaseMetric("system_memory_usage", rd.memoryUsage);
      IncrementApcuBaseMetric("system_memory_max", rd.memoryMax);
      IncrementApcuBaseMetric("system_disk_free_space", rd.diskFree);
      IncrementApcuBaseMetric("system_disk_total_space", rd.diskTotal);
    }

    /** The election of `saveApcuData`: the stored watermark (created if absent) and whether this call took the lock. */
    method Elect() returns (apcuId: int, won: bool)
      modifies host
      ensures apcuId == WatermarkOf(old(host.apcu), Ctx())
      ensures won == Wins(old(host.apcu), Ctx())
      ensures host.apcu == Elected(old(host.apcu), Ctx()) && host.logs == old(host.logs)
    {
      var current := currentApcuId;
      var idKey := WatermarkKey(project, isEven);
      var present := host.Exists(idKey);
      if !present {
        host.Put(idKey, Number(current));
        apcuId := current;
      } else {
        apcuId := host.FetchNumber(idKey);
      }
      won := false;
      var lockKey := LockKey(project, apcuId);
      if apcuId != current {
        won := host.Add(lockKey, Flag(true));
        if won {
          host.Put(idKey, Number(current));
        }
      }
    }

    /** The winner's part of `saveApcuData`: drain generation `apcuId`, then log the flush's own cost. */
    method FlushGeneration(apcuId: int, rd: Readings)
      modifies host
      ensures host.State() == Flushed(old(host.State()), Ctx(), apcuId, rd)
    {
      SaveApcuToFile(apcuId);
      LogFlushCost(rd);
    }

    /** The end of the winner's part: the flush's memory and time, then the system samples if enabled. */
    method LogFlushCost(rd: Readings)
      modifies host
      ensures host.State() == CostLogged(old(host.State()), Ctx(), rd)
    {
      ghost var c := Ctx();
      ghost var w0 := host.State();
      IncrementApcuBaseMetric("logging_max_memory", rd.memory);
      ghost var w1 := host.State();
      assert w1 == Bumped(w0, c, "logging_max_memory", rd.memory);
      IncrementApcuBaseMetric("logging_execution_time", rd.loggingTime);
      ghost var logged := host.State();
      assert logged == Bumped(w1, c, "logging_execution_time", rd.loggingTime);
      if enableSystemMetrics {
        CollectSystemMetrics(rd);
      }
    }

    /** `saveApcuData`: the watermark, the lock election and, for the winner, the drain. */
    method SaveApcuData(rd: Readings)
      modifies host
      ensures host.State() == Flush.SaveApcuData(old(host.State()), Ctx(), rd)
    {
      var apcuId, won := Elect();
      if won {
        FlushGeneration(apcuId, rd);
      }
    }

    /** `processEventHandler`. */
    method ProcessEventHandler(eventType: string, metrics: Dict, rd: Readings)
      modifies host
      ensures Cfg() == old(Cfg())
      ensures host.State() == Handle(old(host.State()), Ctx(), eventType, metrics, rd)
    {
      if eventType == "PROCESS_START" {
        SaveApcuData(rd);
        IncrementApcuBaseMetric("requests_hit_count", 1);
      } else if eventType == "ROUTE_START" {
        IncrementApcuBaseMetric("requests_start_count", 1);
      } else if eventType == "ROUTE_FINISH_SUCCESS" {
        IncrementApcuBaseMetric("requests_finish_success_count", 1);
        IncrementApcuRequestMetrics(metrics, true);
      } else if eventType == "ROUTE_FINISH_FAIL" {
        IncrementApcuBaseMetric("requests_finish_fail_count", 1);
        IncrementApcuRequestMetrics(metrics, false);
      }
    }

    /** The switch to the all-projects project: the current project is saved, then `setProject('all')`. */
    method EnterAllProjects() returns (saved: string)
      modifies this
      ensures saved == old(project)
      ensures Cfg() == old(Cfg()).(project := AllProjects)
    {
      saved := project;
      SetProject(AllProjects);
      AllProjectsName(saved);
    }

    /** The restore after the all-projects pass, as written: `setProject($currentProject)` while on `all`. */
    method LeaveAllProjects(saved: string)
      modifies this
      requires project == AllProjects
      ensures Cfg() == old(Cfg()).(project := RestoredAsWritten(saved))
    {
      SetProject(saved);
      AllProjectsName(saved);
    }

    /**
     * The all-projects pass of `processEvent`: the event handled under `all`,
     * then the project put back through `setProject`, which ignores a falsy
     * saved project and so leaves the logger on `all`.
     */
    method AllProjectsPass(eventType: string, metrics: Dict, rdAll: Readings)
      modifies this, host
      ensures Cfg() == old(Cfg()).(project := RestoredAsWritten(old(project)))
      ensures host.State() == Handle(old(host.State()), old(Ctx()).(project := AllProjects), eventType, metrics, rdAll)
    {
      var currentProject := EnterAllProjects();
      ProcessEventHandler(eventType, metrics, rdAll);
      LeaveAllProjects(currentProject);
    }

    /**
     * `processEvent`: refuses to run without a log path; with all-projects
     * metrics on, handles the event under `all` first (taking the samples
     * `rdAll`), puts the project back through `setProject`, then handles the
     * event under whatever project that left (taking the samples `rd`).
     */
    method ProcessEvent(eventType: string, metrics: Dict, rdAll: Readings, rd: Readings) returns (r: Result<()>)
      modifies this, host
      ensures Falsy(old(logPath)) ==> r == Err(MissingLogPath) && host.State() == old(host.State()) && Cfg() == old(Cfg())
      ensures !Falsy(old(logPath)) ==>
        && r == Ok(())
        && Cfg() == old(Cfg()).(project := ProjectAfter(old(project), old(enableAllProjectsMetrics)))
        && host.State() == ProcessAsWritten(old(host.State()), old(Ctx()), old(enableAllProjectsMetrics), eventType, metrics, rdAll, rd)
    {
      if Falsy(logPath) {
        return Err(MissingLogPath);
      }
      if enableAllProjectsMetrics {
        AllProjectsPass(eventType, metrics, rdAll);
      }
      ProcessEventHandler(eventType, metrics, rd);
      r := Ok(());
    }
  }
}
