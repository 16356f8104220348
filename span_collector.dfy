/** SpanCollector: spans the application measures itself, through StartMeasuring/StopMeasuring events. */
module ManualSpans {
  import opened Php
  import opened Timeline
  import opened MeasureEvents

  const NAME: string := "span-collector"

  /** StartMeasuring: the event's fields go to startMeasure unchanged. */
  function StartedSpec(e: Engine, ev: StartMeasuring, now: int, baseline: int): Engine {
    StartSpec(e, ev.name, ev.measureType, ev.action, ev.labelText, ev.startTime.GetOr(now), baseline)
  }

  /** StopMeasuring: stop with the event's params, only if the name is in flight. */
  function StoppedSpec(e: Engine, ev: StopMeasuring, now: int, baseline: int): Engine {
    if ev.name in e.started then StopSpec(e, ev.name, ev.params, now, baseline) else e
  }

  /** Start then stop of a fresh name: one span with the event's label, type, action and params. */
  lemma StartThenStop(e: Engine, start: StartMeasuring, params: Assoc, t1: int, t2: int, baseline: int)
    requires start.name !in e.started
    ensures var r := StoppedSpec(StartedSpec(e, start, t1, baseline), StopMeasuring(start.name, params), t2, baseline);
      var s := r.measures[|e.measures|];
      |r.measures| == |e.measures| + 1 && r.measures[..|e.measures|] == e.measures
      && s.labelText == LabelFor(start.name, start.labelText)
      && s.spanType == start.measureType && s.action == start.action && s.context == Some(params)
      && start.name !in r.started
  {
    var r := StoppedSpec(StartedSpec(e, start, t1, baseline), StopMeasuring(start.name, params), t2, baseline);
    assert r.measures[..|e.measures|] == e.measures;
  }

  /** An unknown stop changes nothing. */
  lemma UnknownStopInert(e: Engine, ev: StopMeasuring, now: int, baseline: int)
    requires ev.name !in e.started
    ensures StoppedSpec(e, ev, now, baseline) == e
  {
  }

  class SpanCollector {
    const timeline: TimelineCollector

    constructor (requestStartTime: int)
      ensures fresh(timeline) && timeline.name == NAME && timeline.baseline == requestStartTime
      ensures timeline.Valid() && timeline.State() == Empty && timeline.log == []
    {
      timeline := new TimelineCollector.FromAgent(requestStartTime, NAME);
    }

    method GetName() returns (r: string)
      ensures r == "span-collector"
    {
      r := NAME;
    }

    method OnStartMeasuring(ev: StartMeasuring, now: int)
      requires timeline.Valid()
      modifies timeline
      ensures timeline.Valid()
      ensures timeline.State() == StartedSpec(old(timeline.State()), ev, now, timeline.baseline)
      ensures timeline.log == old(timeline.log) + StartWarnings(old(timeline.State()), ev.name)
    {
      timeline.StartMeasure(now, ev.name, ev.measureType, ev.action, ev.labelText, ev.startTime);
    }

    method OnStopMeasuring(ev: StopMeasuring, now: int)
      requires timeline.Valid()
      modifies timeline
      ensures timeline.Valid() && timeline.log == old(timeline.log)
      ensures timeline.State() == StoppedSpec(old(timeline.State()), ev, now, timeline.baseline)
    {
      var inFlight := timeline.HasStartedMeasure(ev.name);
      if inFlight {
        timeline.StopMeasure(ev.name, ev.params, now);
      }
    }
  }
}
