/** FrameworkCollector: application boot and Laravel boot spans. */
module FrameworkBoot {
  import opened Php
  import opened Timeline

  const NAME: string := "framework-collector"

  /** At construction: app_boot starts at the instant LARAVEL_START. */
  function ConstructedSpec(laravelStart: int, baseline: int): Engine {
    StartSpec(Empty, "app_boot", "app", Some("boot"), Some("App boot"), laravelStart, baseline)
  }

  /** The booting callback: start laravel_boot (at t1), then stop app_boot (at t2). */
  function BootingSpec(e: Engine, t1: int, t2: int, baseline: int): Engine {
    StopSpec(StartSpec(e, "laravel_boot", "laravel", Some("boot"), Some("Laravel boot"), t1, baseline),
             "app_boot", [], t2, baseline)
  }

  /** The booted callback: stop laravel_boot only if it is in flight. */
  function BootedSpec(e: Engine, now: int, baseline: int): Engine {
    if "laravel_boot" in e.started then StopSpec(e, "laravel_boot", [], now, baseline) else e
  }

  /** A full boot: two spans, App boot (app/boot) from LARAVEL_START, then Laravel boot (laravel/boot). */
  lemma FullBoot(laravelStart: int, t1: int, t2: int, t3: int, baseline: int)
    ensures var e := BootedSpec(BootingSpec(ConstructedSpec(laravelStart, baseline), t1, t2, baseline), t3, baseline);
      e.started == map[] && e.order == []
      && e.measures == [
        Finish(Measure("App boot", laravelStart - baseline, "app", Some("boot")), t2, baseline, []),
        Finish(Measure("Laravel boot", t1 - baseline, "laravel", Some("boot")), t3, baseline, [])]
  {
    var e0 := ConstructedSpec(laravelStart, baseline);
    assert e0.order == ["app_boot"];
    var e1 := StartSpec(e0, "laravel_boot", "laravel", Some("boot"), Some("Laravel boot"), t1, baseline);
    assert e1.order == ["app_boot", "laravel_boot"];
    var e2 := StopSpec(e1, "app_boot", [], t2, baseline);
    assert e2.order == Without(["app_boot", "laravel_boot"], "app_boot");
    assert e2.order == ["laravel_boot"];
    assert e2.started.Keys == {"laravel_boot"};
  }

  /** booted with laravel_boot not in flight changes nothing. */
  lemma BootedGuard(e: Engine, now: int, baseline: int)
    requires "laravel_boot" !in e.started
    ensures BootedSpec(e, now, baseline) == e
  {
  }

  class FrameworkCollector {
    const timeline: TimelineCollector

    /** laravelStart is the LARAVEL_START instant; the app_boot measure starts there. */
    constructor (requestStartTime: int, laravelStart: int, now: int)
      ensures fresh(timeline) && timeline.name == NAME && timeline.baseline == requestStartTime
      ensures timeline.Valid() && timeline.State() == ConstructedSpec(laravelStart, requestStartTime)
      ensures timeline.log == []
    {
      timeline := new TimelineCollector.FromAgent(requestStartTime, NAME);
      new;
      timeline.StartMeasure(now, "app_boot", "app", Some("boot"), Some("App boot"), Some(laravelStart));
    }

    method GetName() returns (r: string)
      ensures r == "framework-collector"
    {
      r := NAME;
    }

    method Booting(t1: int, t2: int)
      requires timeline.Valid()
      modifies timeline
      ensures timeline.Valid()
      ensures timeline.State() == BootingSpec(old(timeline.State()), t1, t2, timeline.baseline)
      ensures timeline.log == old(timeline.log) + StartWarnings(old(timeline.State()), "laravel_boot")
        + StopWarnings(StartSpec(old(timeline.State()), "laravel_boot", "laravel", Some("boot"),
                                 Some("Laravel boot"), t1, timeline.baseline), "app_boot")
    {
      timeline.StartMeasure(t1, "laravel_boot", "laravel", Some("boot"), Some("Laravel boot"));
      timeline.StopMeasure("app_boot", [], t2);
    }

    method Booted(now: int)
      requires timeline.Valid()
      modifies timeline
      ensures timeline.Valid() && timeline.log == old(timeline.log)
      ensures timeline.State() == BootedSpec(old(timeline.State()), now, timeline.baseline)
    {
      var inFlight := timeline.HasStartedMeasure("laravel_boot");
      if inFlight {
        timeline.StopMeasure("laravel_boot", [], now);
      }
    }
  }
}
