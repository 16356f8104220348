/** HttpRequestCollector: route matching and request handling spans of an HTTP request. */
module HttpRequests {
  import opened Php
  import opened Timeline

  const NAME: string := "request-collector"

  /** The first element of a two-element controller array. */
  datatype Target = ObjectTarget(className: string) | StringTarget(name: string)

  /** The current route's action, as far as getController distinguishes it. */
  datatype RouteAction =
    | NoRoute
    | Closure
    | Instance(className: string)
    | Pair(target: Target, methodName: string)
    | OtherArray
    | Text(s: string)
    | OtherScalar

  /** getController: a readable name for the route action, or null. */
  function Controller(a: RouteAction): (r: Option<string>)
    ensures r.None? <==> a.NoRoute? || a.OtherArray? || a.OtherScalar?
    ensures a.Closure? ==> r == Some("anonymous function")
    ensures a.Instance? ==> r == Some("instance of " + a.className)
    ensures a.Pair? && a.target.ObjectTarget? ==> r == Some(a.target.className + "->" + a.methodName)
    ensures a.Pair? && a.target.StringTarget? ==> r == Some(a.target.name + "::" + a.methodName)
    ensures a.Text? ==> r == Some(a.s)
  {
    match a
    case NoRoute => None
    case Closure => Some("anonymous function")
    case Instance(c) => Some("instance of " + c)
    case Pair(ObjectTarget(c), m) => Some(c + "->" + m)
    case Pair(StringTarget(c), m) => Some(c + "::" + m)
    case OtherArray => None
    case Text(s) => Some(s)
    case OtherScalar => None
  }

  /** The booted callback, registered only outside the console. */
  function BootedSpec(e: Engine, cli: bool, now: int, baseline: int): Engine {
    if cli then e
    else StartSpec(e, "route_matching", "laravel", Some("request"), Some("Route matching"), now, baseline)
  }

  /** RouteMatched: start request_handled (at t1), then stop route_matching (at t2). */
  function RouteMatchedSpec(e: Engine, controller: Option<string>, t1: int, t2: int, baseline: int): Engine {
    StopSpec(StartSpec(e, "request_handled", "laravel", Some("request"), controller, t1, baseline),
             "route_matching", [], t2, baseline)
  }

  function RequestHandledSpec(e: Engine, now: int, baseline: int): Engine {
    StopSpec(e, "request_handled", [], now, baseline)
  }

  /**
   * A whole request outside the console: exactly two spans, route matching
   * first, then request handling labelled with the controller (or its name).
   */
  lemma FullRequest(action: RouteAction, t0: int, t1: int, t2: int, t3: int, baseline: int)
    ensures var e := RequestHandledSpec(
        RouteMatchedSpec(BootedSpec(Empty, false, t0, baseline), Controller(action), t1, t2, baseline), t3, baseline);
      e.started == map[] && e.order == []
      && e.measures == [
        Finish(Measure("Route matching", t0 - baseline, "laravel", Some("request")), t2, baseline, []),
        Finish(Measure(LabelFor("request_handled", Controller(action)), t1 - baseline, "laravel", Some("request")), t3, baseline, [])]
  {
    var e1 := BootedSpec(Empty, false, t0, baseline);
    assert e1.order == ["route_matching"];
    var e2 := StartSpec(e1, "request_handled", "laravel", Some("request"), Controller(action), t1, baseline);
    assert e2.order == ["route_matching", "request_handled"];
    var e3 := StopSpec(e2, "route_matching", [], t2, baseline);
    assert e3.order == Without(["route_matching", "request_handled"], "route_matching");
    assert e3.order == ["request_handled"];
    assert e3.started.Keys == {"request_handled"};
  }

  /** RequestHandled with no request_handled in flight changes nothing and warns once. */
  lemma HandledWithoutMatch(e: Engine, now: int, baseline: int)
    requires "request_handled" !in e.started
    ensures RequestHandledSpec(e, now, baseline) == e
    ensures |StopWarnings(e, "request_handled")| == 1
  {
  }

  class HttpRequestCollector {
    const timeline: TimelineCollector
    /** Whether PHP runs from the command line (php_sapi_name() is 'cli'). */
    const cli: bool

    constructor (requestStartTime: int, cli: bool)
      ensures fresh(timeline) && timeline.name == NAME && timeline.baseline == requestStartTime
      ensures this.cli == cli && timeline.Valid() && timeline.State() == Empty && timeline.log == []
    {
      timeline := new TimelineCollector.FromAgent(requestStartTime, NAME);
      this.cli := cli;
    }

    method GetName() returns (r: string)
      ensures r == "request-collector"
    {
      r := NAME;
    }

    method Booted(now: int)
      requires timeline.Valid()
      modifies timeline
      ensures timeline.Valid()
      ensures timeline.State() == BootedSpec(old(timeline.State()), cli, now, timeline.baseline)
      ensures timeline.log == old(timeline.log) + (if cli then [] else StartWarnings(old(timeline.State()), "route_matching"))
    {
      if !cli {
        timeline.StartMeasure(now, "route_matching", "laravel", Some("request"), Some("Route matching"));
      }
    }

    method RouteMatched(action: RouteAction, t1: int, t2: int)
      requires timeline.Valid()
      modifies timeline
      ensures timeline.Valid()
      ensures timeline.State() == RouteMatchedSpec(old(timeline.State()), Controller(action), t1, t2, timeline.baseline)
      ensures timeline.log == old(timeline.log) + StartWarnings(old(timeline.State()), "request_handled")
        + StopWarnings(StartSpec(old(timeline.State()), "request_handled", "laravel", Some("request"),
                                 Controller(action), t1, timeline.baseline), "route_matching")
    {
      timeline.StartMeasure(t1, "request_handled", "laravel", Some("request"), Controller(action));
      timeline.StopMeasure("route_matching", [], t2);
    }

    method RequestHandled(now: int)
      requires timeline.Valid()
      modifies timeline
      ensures timeline.Valid()
      ensures timeline.State() == RequestHandledSpec(old(timeline.State()), now, timeline.baseline)
      ensures timeline.log == old(timeline.log) + StopWarnings(old(timeline.State()), "request_handled")
    {
      timeline.StopMeasure("request_handled", [], now);
    }
  }
}
