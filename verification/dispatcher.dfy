/**
 * The library's front object (`PhpMetrics`): an on/off switch and a filter
 * on event names in front of the collector and the logger, plus the
 * convenience methods that name the events and forward the settings.
 */
module Dispatch {
  import opened Php
  import opened Apcu
  import opened Keys
  import opened Dicts
  import opened Collectors
  import opened Flush
  import opened Events
  import opened Loggers

  /** The event names `dispatchEvent` lets through. */
  const AllowedEvents: seq<string> := ["PROCESS_START", "ROUTE_START", "ROUTE_FINISH_SUCCESS", "ROUTE_FINISH_FAIL", "UPDATE_METRIC"]

  /** Whether an event reaches the collector and the logger. */
  predicate Reaches(eventType: string, enabled: bool) {
    enabled && eventType in AllowedEvents
  }

  /** The parameters `updateMetric(name, params)` dispatches: `params` with `metric` replaced by `name`. */
  function MetricParams(name: string, p: EventParams): (q: EventParams)
    ensures q.metric == Some(name)
    ensures q.value == p.value && q.executionTime == p.executionTime && q.timeStart == p.timeStart
  {
    p.(metric := Some(name))
  }

  class PhpMetrics {
    var enableMetrics: bool
    const collector: Collector
    const logger: ApcuLogger

    ghost predicate Valid()
      reads this, collector
    {
      collector.Valid()
    }

    /** A front object with a new collector and a new logger, both created at time `now`; metrics start disabled. */
    constructor(now: int, host: Host)
      ensures Valid() && !enableMetrics && fresh(collector) && fresh(logger)
      ensures collector.requestMetrics == Initial() && collector.processStartTimestamp == now
      ensures logger.host == host
      ensures logger.Cfg() == Config("main", "UNKNOWN", "", 0, false, false, Bucket(now), IsEvenId(Bucket(now)))
    {
      enableMetrics := false;
      collector := new Collector(now);
      logger := new ApcuLogger(now, host);
    }

    /**
     * What one `dispatchEvent` did, between the state before and the state
     * after: a filtered-out or disabled event changes nothing; otherwise
     * the collector handles it first, and the map it returns is what the
     * logger handles. The collector's type error stops the call before the
     * logger; the logger's missing log path stops it after the collector.
     * When the logger runs, its project afterwards is what the restore
     * through `setProject` left, and the store is `ProcessAsWritten`.
     */
    twostate predicate Dispatched(eventType: string, p: EventParams, now: int, memory: int, rdAll: Readings, rd: Readings, new r: Result<()>)
      requires old(Valid())
      reads this, collector, logger, logger.host
    {
      && enableMetrics == old(enableMetrics)
      && collector.processStartTimestamp == old(collector.processStartTimestamp)
      && if !Reaches(eventType, old(enableMetrics)) then
           && r == Ok(())
           && collector.requestMetrics == old(collector.requestMetrics)
           && logger.Cfg() == old(logger.Cfg())
           && logger.host.State() == old(logger.host.State())
         else
           var c := CollectEvent(old(collector.requestMetrics), old(collector.processStartTimestamp), eventType, p, now, memory);
           if c.Err? then
             && r == Err(c.error)
             && collector.requestMetrics == old(collector.requestMetrics)
             && logger.Cfg() == old(logger.Cfg())
             && logger.host.State() == old(logger.host.State())
           else
             && collector.requestMetrics == c.value
             && if Falsy(old(logger.logPath)) then
                  && r == Err(MissingLogPath)
                  && logger.Cfg() == old(logger.Cfg())
                  && logger.host.State() == old(logger.host.State())
                else
                  && r == Ok(())
                  && logger.Cfg() == old(logger.Cfg()).(project := ProjectAfter(old(logger.project), old(logger.enableAllProjectsMetrics)))
                  && logger.host.State()
                     == ProcessAsWritten(old(logger.host.State()), old(logger.Ctx()), old(logger.enableAllProjectsMetrics), eventType, c.value, rdAll, rd)
    }

    /**
     * `dispatchEvent(eventType, params)`, with the clock, the memory reading
     * and the system samples of the two logger passes as inputs.
     */
    method DispatchEvent(eventType: string, p: EventParams, now: int, memory: int, rdAll: Readings, rd: Readings) returns (r: Result<()>)
      requires Valid()
      modifies collector, logger, logger.host
      ensures Valid() && Dispatched(eventType, p, now, memory, rdAll, rd, r)
    {
      if eventType !in AllowedEvents {
        return Ok(());
      }
      if enableMetrics {
        var collected := collector.ProcessEvent(eventType, p, now, memory);
        if collected.Err? {
          return Err(collected.error);
        }
        r := logger.ProcessEvent(eventType, collected.value, rdAll, rd);
      } else {
        r := Ok(());
      }
    }

    method EnableMetrics()
      modifies this
      ensures enableMetrics
    {
      enableMetrics := true;
    }

    method DisableMetrics()
      modifies this
      ensures !enableMetrics
    {
      enableMetrics := false;
    }

    method EnableSystemMetrics()
      modifies logger
      ensures logger.Cfg() == old(logger.Cfg()).(enableSystemMetrics := true)
    {
      logger.EnableSystemMetrics();
    }

    method SetProject(project: string)
      modifies logger
      ensures logger.Cfg() == old(logger.Cfg()).(project := Events.SetProject(old(logger.project), project))
    {
      logger.SetProject(project);
    }

    method SetLogPath(path: string)
      modifies logger
      ensures logger.Cfg() == old(logger.Cfg()).(logPath := path)
    {
      logger.SetLogPath(path);
    }

    method SetLogMaxAge(days: int)
      modifies logger
      ensures logger.Cfg() == old(logger.Cfg()).(logMaxAge := days)
    {
      logger.SetLogMaxAge(days);
    }

    method SetTag(tag: string)
      modifies logger
      ensures logger.Cfg() == old(logger.Cfg()).(tag := tag)
    {
      logger.SetTag(tag);
    }

    method EnableAllProjectsMetrics()
      modifies logger
      ensures logger.Cfg() == old(logger.Cfg()).(enableAllProjectsMetrics := true)
    {
      logger.EnableAllProjectsMetrics();
    }

    /** `processStart()`: `PROCESS_START` without parameters. */
    method ProcessStart(now: int, memory: int, rdAll: Readings, rd: Readings) returns (r: Result<()>)
      requires Valid()
      modifies collector, logger, logger.host
      ensures Valid() && Dispatched("PROCESS_START", NoParams, now, memory, rdAll, rd, r)
    {
      r := DispatchEvent("PROCESS_START", NoParams, now, memory, rdAll, rd);
    }

    /** `routeStart()`: `ROUTE_START` without parameters. */
    method RouteStart(now: int, memory: int, rdAll: Readings, rd: Readings) returns (r: Result<()>)
      requires Valid()
      modifies collector, logger, logger.host
      ensures Valid() && Dispatched("ROUTE_START", NoParams, now, memory, rdAll, rd, r)
    {
      r := DispatchEvent("ROUTE_START", NoParams, now, memory, rdAll, rd);
    }

    /** `routeFinishSuccess()`: `ROUTE_FINISH_SUCCESS` without parameters. */
    method RouteFinishSuccess(now: int, memory: int, rdAll: Readings, rd: Readings) returns (r: Result<()>)
      requires Valid()
      modifies collector, logger, logger.host
      ensures Valid() && Dispatched("ROUTE_FINISH_SUCCESS", NoParams, now, memory, rdAll, rd, r)
    {
      r := DispatchEvent("ROUTE_FINISH_SUCCESS", NoParams, now, memory, rdAll, rd);
    }

    /** `routeFinishFail()`: `ROUTE_FINISH_FAIL` without parameters. */
    method RouteFinishFail(now: int, memory: int, rdAll: Readings, rd: Readings) returns (r: Result<()>)
      requires Valid()
      modifies collector, logger, logger.host
      ensures Valid() && Dispatched("ROUTE_FINISH_FAIL", NoParams, now, memory, rdAll, rd, r)
    {
      r := DispatchEvent("ROUTE_FINISH_FAIL", NoParams, now, memory, rdAll, rd);
    }

    /** `updateMetric(name, params)`: `UPDATE_METRIC` with the name written into the parameters. */
    method UpdateMetric(name: string, p: EventParams, now: int, memory: int, rdAll: Readings, rd: Readings) returns (r: Result<()>)
      requires Valid()
      modifies collector, logger, logger.host
      ensures Valid() && Dispatched("UPDATE_METRIC", MetricParams(name, p), now, memory, rdAll, rd, r)
    {
      r := DispatchEvent("UPDATE_METRIC", MetricParams(name, p), now, memory, rdAll, rd);
    }
  }
}
