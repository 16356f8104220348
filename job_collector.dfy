/** JobCollector: one span per processed queue job. */
module JobEvents {
  import opened Php
  import opened Timeline

  const NAME: string := "job-collector"

  function ProcessingSpec(e: Engine, now: int, baseline: int): Engine {
    StartSpec(e, "job_processing", "job", Some("processing"), Some("Job processing"), now, baseline)
  }

  /** JobProcessed: stop job_processing only if it is in flight. */
  function ProcessedSpec(e: Engine, now: int, baseline: int): Engine {
    if "job_processing" in e.started then StopSpec(e, "job_processing", [], now, baseline) else e
  }

  /** Processing then Processed adds exactly one span, labelled Job processing, and leaves nothing in flight. */
  lemma ProcessingThenProcessed(e: Engine, t1: int, t2: int, baseline: int)
    requires WellFormed(e) && "job_processing" !in e.started
    ensures var r := ProcessedSpec(ProcessingSpec(e, t1, baseline), t2, baseline);
      r.measures == e.measures + [Finish(Measure("Job processing", t1 - baseline, "job", Some("processing")), t2, baseline, [])]
      && r.started == e.started && r.order == e.order
  {
    var e1 := ProcessingSpec(e, t1, baseline);
    assert e1.order == e.order + ["job_processing"];
    assert Without(e.order, "job_processing") == e.order by {
      WithoutAbsent(e.order, "job_processing");
    }
    WithoutAppended(e.order, "job_processing");
    assert e1.started - {"job_processing"} == e.started;
  }

  lemma {:induction false} WithoutAbsent(order: seq<string>, name: string)
    requires name !in order
    ensures Without(order, name) == order
  {
    if order != [] {
      WithoutAbsent(order[1..], name);
    }
  }

  lemma {:induction false} WithoutAppended(order: seq<string>, name: string)
    requires name !in order
    ensures Without(order + [name], name) == order
  {
    if order == [] {
      assert [name][1..] == [];
    } else {
      assert (order + [name])[1..] == order[1..] + [name];
      WithoutAppended(order[1..], name);
    }
  }

  /** A second JobProcessing while one is in flight is ignored, with one warning. */
  lemma SecondProcessingIgnored(e: Engine, now: int, baseline: int)
    requires "job_processing" in e.started
    ensures ProcessingSpec(e, now, baseline) == e
    ensures |StartWarnings(e, "job_processing")| == 1
  {
  }

  class JobCollector {
    const timeline: TimelineCollector

    constructor (requestStartTime: int)
      ensures fresh(timeline) && timeline.name == NAME && timeline.baseline == requestStartTime
      ensures timeline.Valid() && timeline.State() == Empty && timeline.log == []
    {
      timeline := new TimelineCollector.FromAgent(requestStartTime, NAME);
    }

    method GetName() returns (r: string)
      ensures r == "job-collector"
    {
      r := NAME;
    }

    method JobProcessing(now: int)
      requires timeline.Valid()
      modifies timeline
      ensures timeline.Valid()
      ensures timeline.State() == ProcessingSpec(old(timeline.State()), now, timeline.baseline)
      ensures timeline.log == old(timeline.log) + StartWarnings(old(timeline.State()), "job_processing")
    {
      timeline.StartMeasure(now, "job_processing", "job", Some("processing"), Some("Job processing"));
    }

    method JobProcessed(now: int)
      requires timeline.Valid()
      modifies timeline
      ensures timeline.Valid() && timeline.log == old(timeline.log)
      ensures timeline.State() == ProcessedSpec(old(timeline.State()), now, timeline.baseline)
    {
      var inFlight := timeline.HasStartedMeasure("job_processing");
      if inFlight {
        timeline.StopMeasure("job_processing", [], now);
      }
    }
  }
}
