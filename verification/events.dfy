/**
 * The logger's entry point (`processEvent`) as a function on the shared
 * state, in the corrected form (the project is put back as it was) and as
 * written (the project is put back through `setProject`, which ignores a
 * falsy name).
 */
module Events {
  import opened Php
  import opened Apcu
  import opened Keys
  import opened ProjectName
  import opened Aggregation
  import opened Dicts
  import opened Flush

  /** The project the all-projects pass runs under. */
  const AllProjects := "all"

  /** `setProject(p)`: a falsy name is ignored, any other is sanitised. */
  function SetProject(current: string, p: string): (r: string)
    ensures Falsy(p) ==> r == current
    ensures !Falsy(p) ==> IsProjectName(r)
  {
    if Falsy(p) then current else FormatProjectName(p)
  }

  /**
   * `processEvent` once the log path is known to be set, with the project
   * put back as it was: with all-projects metrics on, the event is handled
   * under `all` first (with the samples `rdAll` that pass takes) and then
   * under the logger's own project (with the samples `rd`).
   */
  function Process(w: World, c: Context, allProjects: bool, eventType: string, metrics: Dict, rdAll: Readings, rd: Readings): World {
    var w1 := if allProjects then Handle(w, c.(project := AllProjects), eventType, metrics, rdAll) else w;
    Handle(w1, c, eventType, metrics, rd)
  }

  /** The project `processEvent` leaves behind as written: `setProject($saved)` after `setProject('all')`. */
  function RestoredAsWritten(saved: string): string {
    SetProject(SetProject(saved, AllProjects), saved)
  }

  /** The logger's project after one `processEvent` as written. */
  function ProjectAfter(project: string, allProjects: bool): string {
    if allProjects then RestoredAsWritten(project) else project
  }

  /**
   * `processEvent` as written: after the pass under `all` the project is
   * put back through `setProject`, and the second pass runs under whatever
   * project that left.
   */
  function ProcessAsWritten(w: World, c: Context, allProjects: bool, eventType: string, metrics: Dict, rdAll: Readings, rd: Readings): World {
    var w1 := if allProjects then Handle(w, c.(project := AllProjects), eventType, metrics, rdAll) else w;
    Handle(w1, c.(project := ProjectAfter(c.project, allProjects)), eventType, metrics, rd)
  }

  /** Sanitising `all` gives `all`. */
  lemma AllProjectsName(current: string)
    ensures SetProject(current, AllProjects) == AllProjects
  {
    assert !Falsy(AllProjects);
    AllIsFixed();
  }

  /** For a sanitised, truthy project name the written restore does put the project back. */
  lemma RestoreAgreesForTruthyNames(saved: string)
    requires IsProjectName(saved) && !Falsy(saved)
    ensures RestoredAsWritten(saved) == saved
  {
    FixedPoint(saved);
  }

  /** `processEventHandler` ignores every event type it has no case for, `UPDATE_METRIC` included. */
  lemma UnknownEventsChangeNothing(w: World, c: Context, eventType: string, metrics: Dict, rd: Readings)
    requires eventType !in ["PROCESS_START", "ROUTE_START", "ROUTE_FINISH_SUCCESS", "ROUTE_FINISH_FAIL"]
    ensures Handle(w, c, eventType, metrics, rd) == w
    ensures Process(w, c, true, eventType, metrics, rd, rd) == w && Process(w, c, false, eventType, metrics, rd, rd) == w
    ensures ProcessAsWritten(w, c, true, eventType, metrics, rd, rd) == w && ProcessAsWritten(w, c, false, eventType, metrics, rd, rd) == w
  {
  }

  /** `setProject(" ")` passes the truthiness test and stores the falsy name "". */
  lemma BlankProjectIsFalsy(current: string)
    ensures SetProject(current, " ") == "" && Falsy(SetProject(current, " "))
  {
    var blank := " ";
    assert !Falsy(blank);
    FormatIsSqueeze(blank);
    assert TrimLeft(blank) == TrimLeft(blank[1..]) && blank[1..] == [];
    assert Trim(blank) == [];
  }

  /** The written restore cannot put a falsy project back: the logger is left on `all`. */
  lemma RestoreLosesFalsyProject()
    ensures RestoredAsWritten("") == AllProjects
  {
    AllProjectsName("");
  }

  /** Two generations' counters for different projects never coincide. */
  lemma ProjectsApart(p: string, q: string, isEven: bool, name: string, tag: string)
    requires p != q
    ensures CounterKey(TagPrefix(p, isEven), name, tag) != CounterKey(TagPrefix(q, isEven), name, tag)
  {
    var kp := CounterKey(TagPrefix(p, isEven), name, tag);
    var kq := CounterKey(TagPrefix(q, isEven), name, tag);
    if |p| != |q| {
      assert |kp| != |kq|;
    } else {
      assert kp[11..11 + |p|] == p && kq[11..11 + |q|] == q;
    }
  }

  lemma RouteStartBumps(w: World, c: Context, d: Dict, rd: Readings)
    ensures Handle(w, c, "ROUTE_START", d, rd) == Bumped(w, c, "requests_start_count", 1)
  {
  }

  /** A base increment under one context adds to its own counter and leaves another project's counter alone. */
  lemma BumpedCounters(w: World, c: Context, other: string, name: string, v: int)
    requires other != c.project
    ensures var r := Bumped(w, c, name, v);
      && NumberAt(r.apcu, CounterKey(TagPrefix(c.project, c.isEven), name, c.tag))
         == NumberAt(w.apcu, CounterKey(TagPrefix(c.project, c.isEven), name, c.tag)) + v
      && NumberAt(r.apcu, CounterKey(TagPrefix(other, c.isEven), name, c.tag))
         == NumberAt(w.apcu, CounterKey(TagPrefix(other, c.isEven), name, c.tag))
  {
    var p := TagPrefix(c.project, c.isEven);
    var k := CounterKey(TagPrefix(other, c.isEven), name, c.tag);
    ProjectsApart(other, c.project, c.isEven, name, c.tag);
    KindsDiffer(TagPrefix(other, c.isEven), p, name, c.tag, "", true, 0);
    assert SameAt(w.apcu, IncrementBaseMetric(w.apcu, p, c.tag, name, v), k);
  }

  /**
   * As written, a route start under the falsy project "" with all-projects
   * metrics on is counted twice under `all` and not at all under "".
   */
  lemma AsWrittenCountsTwiceUnderAll(w: World, c: Context, d: Dict, rdAll: Readings, rd: Readings)
    requires c.project == ""
    ensures ProjectAfter(c.project, true) == AllProjects
    ensures var r := ProcessAsWritten(w, c, true, "ROUTE_START", d, rdAll, rd);
      var allKey := CounterKey(TagPrefix(AllProjects, c.isEven), "requests_start_count", c.tag);
      var ownKey := CounterKey(TagPrefix("", c.isEven), "requests_start_count", c.tag);
      && NumberAt(r.apcu, allKey) == NumberAt(w.apcu, allKey) + 2
      && NumberAt(r.apcu, ownKey) == NumberAt(w.apcu, ownKey)
  {
    var ca := c.(project := AllProjects);
    AllProjectsName("");
    RestoreLosesFalsyProject();
    var w1 := Bumped(w, ca, "requests_start_count", 1);
    RouteStartBumps(w, ca, d, rdAll);
    RouteStartBumps(w1, ca, d, rd);
    assert ProcessAsWritten(w, c, true, "ROUTE_START", d, rdAll, rd) == Bumped(w1, ca, "requests_start_count", 1);
    BumpedCounters(w, ca, "", "requests_start_count", 1);
    BumpedCounters(w1, ca, "", "requests_start_count", 1);
  }

  /**
   * Corrected, the same route start is counted once under `all` and once
   * under the logger's own project, whatever that project is.
   */
  lemma ProcessCountsOnceEach(w: World, c: Context, d: Dict, rdAll: Readings, rd: Readings)
    requires c.project != AllProjects
    ensures var r := Process(w, c, true, "ROUTE_START", d, rdAll, rd);
      var allKey := CounterKey(TagPrefix(AllProjects, c.isEven), "requests_start_count", c.tag);
      var ownKey := CounterKey(TagPrefix(c.project, c.isEven), "requests_start_count", c.tag);
      && NumberAt(r.apcu, allKey) == NumberAt(w.apcu, allKey) + 1
      && NumberAt(r.apcu, ownKey) == NumberAt(w.apcu, ownKey) + 1
  {
    var ca := c.(project := AllProjects);
    var w1 := Bumped(w, ca, "requests_start_count", 1);
    RouteStartBumps(w, ca, d, rdAll);
    RouteStartBumps(w1, c, d, rd);
    assert Process(w, c, true, "ROUTE_START", d, rdAll, rd) == Bumped(w1, c, "requests_start_count", 1);
    BumpedCounters(w, ca, c.project, "requests_start_count", 1);
    BumpedCounters(w1, c, AllProjects, "requests_start_count", 1);
  }

  /**
   * For a sanitised, truthy project (the default `main` among them) the
   * program as written and the corrected definition do the same thing, and
   * the project is the same afterwards.
   */
  lemma AsWrittenAgreesForTruthyNames(w: World, c: Context, allProjects: bool, eventType: string, d: Dict, rdAll: Readings, rd: Readings)
    requires IsProjectName(c.project) && !Falsy(c.project)
    ensures ProjectAfter(c.project, allProjects) == c.project
    ensures ProcessAsWritten(w, c, allProjects, eventType, d, rdAll, rd) == Process(w, c, allProjects, eventType, d, rdAll, rd)
  {
    RestoreAgreesForTruthyNames(c.project);
    assert c.(project := ProjectAfter(c.project, allProjects)) == c;
  }
}
