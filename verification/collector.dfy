/**
 * The per-request metric map (`Collector`): counters, sums and running
 * maxima kept in an insertion-ordered dictionary, updated in place by each
 * event. Clock and memory readings are inputs.
 */
module Collectors {
  import opened Php
  import opened Dicts

  /**
   * The parameters of an `UPDATE_METRIC` event. A number that is 0 stands
   * for an absent or empty entry (PHP's `empty`); a missing `metric` makes
   * `strtolower` raise a type error.
   */
  datatype EventParams = EventParams(metric: Option<string>, value: int, executionTime: int, timeStart: int)

  /** The parameters of an event dispatched without any. */
  const NoParams := EventParams(None, 0, 0, 0)

  /** The map a new collector starts with. */
  function Initial(): (d: Dict)
    ensures d.Valid() && d.keys == ["max_memory", "execution_time"]
    ensures d.Get("max_memory") == 0 && d.Get("execution_time") == 0
  {
    Empty().Put("max_memory", 0).Put("execution_time", 0)
  }

  /** The duration an `UPDATE_METRIC` event reports: `execution_time` if given, else the time since `time_start`, at least 0. */
  function Duration(p: EventParams, now: int): (t: int)
    ensures p.executionTime != 0 ==> t == p.executionTime
    ensures p.executionTime == 0 ==> t >= 0 && t >= now - p.timeStart
    ensures p.executionTime == 0 && now >= p.timeStart ==> t == now - p.timeStart
    ensures p.executionTime == 0 && now < p.timeStart ==> t == 0
  {
    if p.executionTime != 0 then p.executionTime else Max(now - p.timeStart, 0)
  }

  /** Whether the event carries timing. */
  predicate Timed(p: EventParams) {
    p.executionTime != 0 || p.timeStart != 0
  }

  /** The four entries an `UPDATE_METRIC` event can touch are four different names, none of them `max_memory` but the first. */
  lemma DerivedNamesDiffer(base: string)
    ensures base + "_value" != "max_memory" && base + "_time" != "max_memory" && base + "_time_max" != "max_memory"
    ensures base != base + "_value" && base != base + "_time" && base != base + "_time_max"
    ensures base + "_value" != base + "_time" && base + "_value" != base + "_time_max" && base + "_time" != base + "_time_max"
  {
    var v, t, m := base + "_value", base + "_time", base + "_time_max";
    assert v[|v| - 1] == 'e' && t[|t| - 1] == 'e' && m[|m| - 1] == 'x';
    assert |v| == |base| + 6 && |t| == |base| + 5 && |m| == |base| + 9;
    assert "max_memory"[9] == 'y';
  }

  /** `$a[$k] = $a[$k] ?? 0; $a[$k] += $v;`: entry `k` grows by `v`, starting from 0 if absent. */
  function Add(d: Dict, k: string, v: int): (r: Dict)
    requires d.Valid()
    ensures r.Valid() && d.keys <= r.keys && k in r.values
    ensures r.Get(k) == d.Get(k) + v
    ensures forall k' :: k' != k ==> r.Get(k') == d.Get(k')
  {
    d.Put(k, d.Get(k) + v)
  }

  /** The timing part of `UPDATE_METRIC`: `<base>_time` grows by `t`, `<base>_time_max` becomes the larger of itself and `t`. */
  function AddTiming(d: Dict, base: string, t: int): (r: Dict)
    requires d.Valid()
    ensures r.Valid() && d.keys <= r.keys
    ensures r.Get(base + "_time") == d.Get(base + "_time") + t
    ensures r.Get(base + "_time_max") == Max(t, d.Get(base + "_time_max"))
    ensures forall k :: k != base + "_time" && k != base + "_time_max" ==> r.Get(k) == d.Get(k)
  {
    DerivedNamesDiffer(base);
    var d1 := Add(d, base + "_time", t);
    var d2 := d1.Put(base + "_time_max", Max(t, d1.Get(base + "_time_max")));
    PrefixTrans(d.keys, d1.keys, d2.keys);
    d2
  }

  /** The `UPDATE_METRIC` branch under the lower-cased name `base`. */
  function UpdateMetric(d: Dict, base: string, p: EventParams, now: int): (r: Dict)
    requires d.Valid()
    ensures r.Valid() && d.keys <= r.keys
    ensures base != "max_memory" ==> r.Get("max_memory") == d.Get("max_memory")
    ensures base == "max_memory" ==> r.Get("max_memory") == d.Get("max_memory") + 1
  {
    DerivedNamesDiffer(base);
    var d1 := Add(d, base, 1);
    var d2 := if p.value != 0 then Add(d1, base + "_value", p.value) else d1;
    assert d2.Get("max_memory") == d1.Get("max_memory");
    PrefixTrans(d.keys, d1.keys, d2.keys);
    if Timed(p) then
      var d3 := AddTiming(d2, base, Duration(p, now));
      PrefixTrans(d.keys, d2.keys, d3.keys);
      d3
    else d2
  }

  /**
   * `processEvent(eventType, params)` on map `d` for a process that started
   * at `start`, at time `now` with peak memory `memory`: the new map, which
   * is also what the call returns, or the type error of a nameless
   * `UPDATE_METRIC`.
   */
  function CollectEvent(d: Dict, start: int, eventType: string, p: EventParams, now: int, memory: int): (r: Result<Dict>)
    requires d.Valid()
    ensures r.Err? <==> eventType == "UPDATE_METRIC" && p.metric.None?
    ensures r.Err? ==> r.error == MissingMetricName
    ensures r.Ok? ==> r.value.Valid() && d.keys <= r.value.keys
    ensures r.Ok? ==> r.value.Get("max_memory") >= d.Get("max_memory") && r.value.Get("max_memory") >= memory
  {
    if eventType == "UPDATE_METRIC" && p.metric.None? then Err(MissingMetricName)
    else
      var d1 :=
        if eventType == "ROUTE_FINISH_SUCCESS" || eventType == "ROUTE_FINISH_FAIL" then d.Put("execution_time", now - start)
        else if eventType == "UPDATE_METRIC" then UpdateMetric(d, Lower(p.metric.value), p, now)
        else d;
      Ok(d1.Put("max_memory", Max(d1.Get("max_memory"), memory)))
  }

  /** The entries `UPDATE_METRIC` sets. */
  lemma UpdateMetricEntries(d: Dict, base: string, p: EventParams, now: int)
    requires d.Valid()
    ensures var r := UpdateMetric(d, base, p, now);
      && r.Get(base) == d.Get(base) + 1
      && r.Get(base + "_value") == d.Get(base + "_value") + p.value
      && (Timed(p) ==> r.Get(base + "_time") == d.Get(base + "_time") + Duration(p, now))
      && (Timed(p) ==> r.Get(base + "_time_max") == Max(Duration(p, now), d.Get(base + "_time_max")))
      && (!Timed(p) ==> r.Get(base + "_time") == d.Get(base + "_time") && r.Get(base + "_time_max") == d.Get(base + "_time_max"))
  {
    DerivedNamesDiffer(base);
    var d1 := Add(d, base, 1);
    var d2 := if p.value != 0 then Add(d1, base + "_value", p.value) else d1;
    assert d2.Get(base) == d.Get(base) + 1;
    assert d2.Get(base + "_value") == d.Get(base + "_value") + p.value;
    assert d2.Get(base + "_time") == d.Get(base + "_time") && d2.Get(base + "_time_max") == d.Get(base + "_time_max");
  }

  /** `UPDATE_METRIC` sets no entry but its four. */
  lemma UpdateMetricFrame(d: Dict, base: string, p: EventParams, now: int, k: string)
    requires d.Valid()
    requires k != base && k != base + "_value" && k != base + "_time" && k != base + "_time_max"
    ensures UpdateMetric(d, base, p, now).Get(k) == d.Get(k)
  {
    var d1 := Add(d, base, 1);
    var d2 := if p.value != 0 then Add(d1, base + "_value", p.value) else d1;
    assert d2.Get(k) == d.Get(k);
  }

  /**
   * A named `UPDATE_METRIC` event succeeds; the lower-cased name counts one
   * more event, `<name>_value` grows by the value (by nothing when it is
   * empty), `<name>_time` grows by the duration and `<name>_time_max` keeps
   * the largest duration when the event is timed, `max_memory` becomes the
   * larger of its old value and the reading, and every other entry is as it
   * was.
   */
  lemma CollectUpdate(d: Dict, start: int, p: EventParams, now: int, memory: int)
    requires d.Valid() && p.metric.Some? && Lower(p.metric.value) != "max_memory"
    ensures var base := Lower(p.metric.value);
      var r := CollectEvent(d, start, "UPDATE_METRIC", p, now, memory);
      && r.Ok?
      && r.value.Get(base) == d.Get(base) + 1
      && r.value.Get(base + "_value") == d.Get(base + "_value") + p.value
      && (Timed(p) ==> r.value.Get(base + "_time") == d.Get(base + "_time") + Duration(p, now))
      && (Timed(p) ==> r.value.Get(base + "_time_max") == Max(Duration(p, now), d.Get(base + "_time_max")))
      && (!Timed(p) ==> r.value.Get(base + "_time") == d.Get(base + "_time") && r.value.Get(base + "_time_max") == d.Get(base + "_time_max"))
      && r.value.Get(base + "_time_max") >= d.Get(base + "_time_max")
      && r.value.Get("max_memory") == Max(d.Get("max_memory"), memory)
      && forall k :: k != base && k != base + "_value" && k != base + "_time" && k != base + "_time_max" && k != "max_memory" ==>
           r.value.Get(k) == d.Get(k)
  {
    var base := Lower(p.metric.value);
    DerivedNamesDiffer(base);
    UpdateMetricEntries(d, base, p, now);
    forall k | k != base && k != base + "_value" && k != base + "_time" && k != base + "_time_max" && k != "max_memory"
      ensures CollectEvent(d, start, "UPDATE_METRIC", p, now, memory).value.Get(k) == d.Get(k)
    {
      UpdateMetricFrame(d, base, p, now, k);
    }
  }

  /**
   * A metric named `max_memory` (after lower-casing) is first counted as a
   * metric and then overwritten by the memory step: the entry ends as the
   * larger of its old value plus one and the reading.
   */
  lemma CollectUpdateMaxMemoryName(d: Dict, start: int, p: EventParams, now: int, memory: int)
    requires d.Valid() && p.metric.Some? && Lower(p.metric.value) == "max_memory"
    ensures var r := CollectEvent(d, start, "UPDATE_METRIC", p, now, memory);
      && r.Ok?
      && r.value.Get("max_memory") == Max(d.Get("max_memory") + 1, memory)
  {
  }

  /** A finished route records the time since the process started and changes nothing else but `max_memory`. */
  lemma CollectFinish(d: Dict, start: int, eventType: string, p: EventParams, now: int, memory: int)
    requires d.Valid() && eventType in {"ROUTE_FINISH_SUCCESS", "ROUTE_FINISH_FAIL"}
    ensures var r := CollectEvent(d, start, eventType, p, now, memory);
      && r.Ok?
      && r.value.Get("execution_time") == now - start
      && r.value.Get("max_memory") == Max(d.Get("max_memory"), memory)
      && forall k :: k != "execution_time" && k != "max_memory" ==> r.value.Get(k) == d.Get(k)
  {
  }

  /**
   * `PROCESS_START`, `ROUTE_START` and any event type without a case only
   * raise `max_memory` to the reading; no other entry and no key order changes.
   */
  lemma CollectOther(d: Dict, start: int, eventType: string, p: EventParams, now: int, memory: int)
    requires d.Valid() && eventType !in {"ROUTE_FINISH_SUCCESS", "ROUTE_FINISH_FAIL", "UPDATE_METRIC"}
    ensures var r := CollectEvent(d, start, eventType, p, now, memory);
      && r.Ok?
      && r.value.Get("max_memory") == Max(d.Get("max_memory"), memory)
      && ("max_memory" in d.values ==> r.value.keys == d.keys)
      && forall k :: k != "max_memory" ==> r.value.Get(k) == d.Get(k)
  {
  }

  /** The collector object: the map of the current request and the time the process started. */
  class Collector {
    var requestMetrics: Dict
    var processStartTimestamp: int

    ghost predicate Valid()
      reads this
    {
      requestMetrics.Valid()
    }

    /** A collector created at time `now`. */
    constructor(now: int)
      ensures Valid() && requestMetrics == Initial() && processStartTimestamp == now
    {
      requestMetrics := Initial();
      processStartTimestamp := now;
    }

    /** `$this->requestMetrics[$k] = $this->requestMetrics[$k] ?? 0;` followed by `+= $v`. */
    method Increase(k: string, v: int)
      requires Valid()
      modifies this
      ensures Valid() && requestMetrics == Add(old(requestMetrics), k, v)
      ensures processStartTimestamp == old(processStartTimestamp)
    {
      PutTwice(requestMetrics, k, requestMetrics.Get(k), requestMetrics.Get(k) + v);
      requestMetrics := requestMetrics.Put(k, requestMetrics.Get(k));
      requestMetrics := requestMetrics.Put(k, requestMetrics.Get(k) + v);
    }

    /** The timing part of the `UPDATE_METRIC` case. */
    method RecordTiming(base: string, executionTime: int)
      requires Valid()
      modifies this
      ensures Valid() && requestMetrics == AddTiming(old(requestMetrics), base, executionTime)
      ensures processStartTimestamp == old(processStartTimestamp)
    {
      var timeName := base + "_time";
      var timeMaxName := base + "_time_max";
      Increase(timeName, executionTime);
      var m := requestMetrics;
      PutTwice(m, timeMaxName, m.Get(timeMaxName), Max(executionTime, m.Get(timeMaxName)));
      requestMetrics := requestMetrics.Put(timeMaxName, requestMetrics.Get(timeMaxName));
      requestMetrics := requestMetrics.Put(timeMaxName, Max(executionTime, requestMetrics.Get(timeMaxName)));
    }

    /** The `UPDATE_METRIC` case once the name is known. */
    method CountMetric(base: string, p: EventParams, now: int)
      requires Valid()
      modifies this
      ensures Valid() && requestMetrics == UpdateMetric(old(requestMetrics), base, p, now)
      ensures processStartTimestamp == old(processStartTimestamp)
    {
      Increase(base, 1);
      if p.value != 0 {
        Increase(base + "_value", p.value);
      }
      if p.executionTime != 0 || p.timeStart != 0 {
        var executionTime: int;
        if p.executionTime != 0 {
          executionTime := p.executionTime;
        } else {
          executionTime := Max(now - p.timeStart, 0);
        }
        assert executionTime == Duration(p, now);
        RecordTiming(base, executionTime);
      }
    }

    /**
     * `processEvent`: updates the map for the event, raises `max_memory` to
     * the reading and returns the map; a nameless `UPDATE_METRIC` raises
     * the type error and changes nothing.
     */
    method ProcessEvent(eventType: string, p: EventParams, now: int, memory: int) returns (r: Result<Dict>)
      requires Valid()
      modifies this
      ensures Valid() && processStartTimestamp == old(processStartTimestamp)
      ensures r == CollectEvent(old(requestMetrics), old(processStartTimestamp), eventType, p, now, memory)
      ensures r.Ok? ==> requestMetrics == r.value
      ensures r.Err? ==> requestMetrics == old(requestMetrics)
    {
      if eventType == "ROUTE_FINISH_SUCCESS" || eventType == "ROUTE_FINISH_FAIL" {
        requestMetrics := requestMetrics.Put("execution_time", now - processStartTimestamp);
      } else if eventType == "UPDATE_METRIC" {
        if p.metric.None? {
          return Err(MissingMetricName);
        }
        CountMetric(Lower(p.metric.value), p, now);
      }
      requestMetrics := requestMetrics.Put("max_memory", Max(requestMetrics.Get("max_memory"), memory));
      r := Ok(requestMetrics);
    }
  }
}
