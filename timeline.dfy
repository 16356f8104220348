/**
 * The measurement timeline shared by every collector: EventDataCollector and
 * its older twin TimelineDataCollector. A collector keeps the measures in flight
 * (name -> measure, in insertion order) and the list of completed spans.
 *
 * Instants are whole microseconds. A measure's start is stored as an offset
 * from the collector's baseline; spans report milliseconds.
 */
module Timeline {
  import opened Php
  import Time
  import StartTime

  /** What startMeasure stores under a name: label, offset from the baseline (µs), type, action. */
  datatype Measure = Measure(labelText: string, start: int, measureType: string, action: Option<string>)

  /** A completed measure as pushed onto the list: start and duration in milliseconds. */
  datatype Span = Span(
    labelText: string,
    start: real,
    duration: real,
    spanType: string,
    action: Option<string>,
    context: Option<Assoc>)

  /** The collector's state: in-flight measures, their key order, and the completed list. */
  datatype Engine = Engine(started: map<string, Measure>, order: seq<string>, measures: seq<Span>)

  const Empty: Engine := Engine(map[], [], [])

  predicate Distinct(names: seq<string>) {
    forall i, j :: 0 <= i < j < |names| ==> names[i] != names[j]
  }

  /** The key order lists every in-flight name exactly once. */
  predicate WellFormed(e: Engine) {
    Distinct(e.order)
    && (forall n :: n in e.started ==> n in e.order)
    && (forall n :: n in e.order ==> n in e.started)
  }

  /** `$label ?: $name`: an absent label, "" or "0" falls back to the name. */
  function LabelFor(name: string, labelText: Option<string>): (l: string)
    ensures labelText.Some? && !FalsyString(labelText.value) ==> l == labelText.value
    ensures labelText.None? || FalsyString(labelText.value) ==> l == name
  {
    if labelText.Some? && !FalsyString(labelText.value) then labelText.value else name
  }

  /** The key order after a pull: every other name, in the same order. */
  function Without(order: seq<string>, name: string): (r: seq<string>)
    ensures forall n :: n in r <==> n in order && n != name
    ensures Distinct(order) ==> Distinct(r)
  {
    if order == [] then []
    else if order[0] == name then Without(order[1..], name)
    else
      var rest := Without(order[1..], name);
      assert Distinct(order) ==> Distinct([order[0]] + rest) by {
        if Distinct(order) {
          assert order[0] !in order[1..];
        }
      }
      [order[0]] + rest
  }

  /** The key order with every name of `names` pulled out. */
  function Drop(order: seq<string>, names: seq<string>): seq<string> {
    if order == [] then []
    else if order[0] in names then Drop(order[1..], names)
    else [order[0]] + Drop(order[1..], names)
  }

  /** addMeasure's record for offsets startUs..endUs (µs from the baseline). */
  function MakeSpan(labelText: string, startUs: int, endUs: int, spanType: string,
                    action: Option<string>, context: Option<Assoc>): (s: Span)
    ensures s.start * 1000.0 == startUs as real
    ensures s.start + s.duration == Time.ToMilliseconds(endUs)
  {
    Time.DurationIsDifference(startUs, endUs);
    Span(labelText, Time.ToMilliseconds(startUs), Time.ToMilliseconds(endUs - startUs), spanType, action, context)
  }

  /** The span a stop at instant `end` makes of measure m. */
  function Finish(m: Measure, end: int, baseline: int, params: Assoc): Span {
    MakeSpan(m.labelText, m.start, end - baseline, m.measureType, m.action, Some(params))
  }

  function StartSpec(e: Engine, name: string, measureType: string, action: Option<string>,
                     labelText: Option<string>, start: int, baseline: int): Engine
  {
    if name in e.started then e
    else Engine(e.started[name := Measure(LabelFor(name, labelText), start - baseline, measureType, action)],
                e.order + [name], e.measures)
  }

  function StopSpec(e: Engine, name: string, params: Assoc, end: int, baseline: int): Engine {
    if name !in e.started then e
    else Engine(e.started - {name}, Without(e.order, name),
                e.measures + [Finish(e.started[name], end, baseline, params)])
  }

  function AddSpec(e: Engine, labelText: string, start: int, end: int, spanType: string,
                   action: Option<string>, context: Option<Assoc>): Engine
  {
    e.(measures := e.measures + [MakeSpan(labelText, start, end, spanType, action, context)])
  }

  /** Stops names in turn; the k-th stop reads the clock value clock(k). */
  function StopAll(e: Engine, names: seq<string>, clock: nat -> int, baseline: int): Engine
    decreases |names|
  {
    if names == [] then e
    else
      var k := |names| - 1;
      StopSpec(StopAll(e, names[..k], clock, baseline), names[k], [], clock(k), baseline)
  }

  /** collect(): stop every measure in flight, in key order. */
  function CollectSpec(e: Engine, clock: nat -> int, baseline: int): Engine {
    StopAll(e, e.order, clock, baseline)
  }

  /** The spans force-stopping `names` adds, one per name, in order. */
  function ForcedSpans(started: map<string, Measure>, names: seq<string>, clock: nat -> int, baseline: int): seq<Span>
    requires forall n :: n in names ==> n in started
    decreases |names|
  {
    if names == [] then []
    else
      var k := |names| - 1;
      ForcedSpans(started, names[..k], clock, baseline) + [Finish(started[names[k]], clock(k), baseline, [])]
  }

  function StartWarnings(e: Engine, name: string): seq<LogEntry> {
    if name in e.started then [Warning("Did not start measure '" + name + "' because it's already started.")]
    else []
  }

  function StopWarnings(e: Engine, name: string): seq<LogEntry> {
    if name !in e.started then [Warning("Did not stop measure '" + name + "' because it hasn't been started.")]
    else []
  }

  // ---------------------------------------------------------------------------
  // Properties of the engine

  lemma StartKeepsWellFormed(e: Engine, name: string, measureType: string, action: Option<string>,
                             labelText: Option<string>, start: int, baseline: int)
    requires WellFormed(e)
    ensures WellFormed(StartSpec(e, name, measureType, action, labelText, start, baseline))
  {
  }

  lemma StopKeepsWellFormed(e: Engine, name: string, params: Assoc, end: int, baseline: int)
    requires WellFormed(e)
    ensures WellFormed(StopSpec(e, name, params, end, baseline))
  {
  }

  /** A duplicate start changes nothing and logs exactly one warning. */
  lemma DuplicateStartIgnored(e: Engine, name: string, measureType: string, action: Option<string>,
                              labelText: Option<string>, start: int, baseline: int)
    requires name in e.started
    ensures StartSpec(e, name, measureType, action, labelText, start, baseline) == e
    ensures |StartWarnings(e, name)| == 1
  {
  }

  /** The spans ForcedSpans builds: the i-th comes from the i-th name, ended at clock(i). */
  lemma {:induction false} ForcedSpansAt(started: map<string, Measure>, names: seq<string>, clock: nat -> int, baseline: int)
    requires forall n :: n in names ==> n in started
    ensures |ForcedSpans(started, names, clock, baseline)| == |names|
    ensures forall i :: 0 <= i < |names| ==>
      ForcedSpans(started, names, clock, baseline)[i] == Finish(started[names[i]], clock(i), baseline, [])
    decreases |names|
  {
    if names != [] {
      var k := |names| - 1;
      var p := names[..k];
      ForcedSpansAt(started, p, clock, baseline);
      var f := ForcedSpans(started, names, clock, baseline);
      var g := ForcedSpans(started, p, clock, baseline);
      assert f == g + [Finish(started[names[k]], clock(k), baseline, [])];
      forall i | 0 <= i < |names| ensures f[i] == Finish(started[names[i]], clock(i), baseline, []) {
        if i < k {
          assert f[i] == g[i] && p[i] == names[i];
        }
      }
    }
  }

  lemma {:induction false} DropNone(order: seq<string>)
    ensures Drop(order, []) == order
  {
    if order != [] {
      DropNone(order[1..]);
    }
  }

  lemma {:induction false} DropOneMore(order: seq<string>, names: seq<string>, x: string)
    ensures Without(Drop(order, names), x) == Drop(order, names + [x])
  {
    if order != [] {
      DropOneMore(order[1..], names, x);
    }
  }

  lemma {:induction false} DropEverything(order: seq<string>, names: seq<string>)
    requires forall n :: n in order ==> n in names
    ensures Drop(order, names) == []
  {
    if order != [] {
      DropEverything(order[1..], names);
    }
  }

  /**
   * Force-stopping distinct in-flight names removes exactly them from the map
   * and from the key order, leaving the other measures as they were.
   */
  lemma {:induction false} StopAllKeys(e: Engine, names: seq<string>, clock: nat -> int, baseline: int)
    requires WellFormed(e) && Distinct(names)
    requires forall n :: n in names ==> n in e.started
    ensures var r := StopAll(e, names, clock, baseline);
      WellFormed(r)
      && (forall n :: n in r.started <==> n in e.started && n !in names)
      && (forall n :: n in r.started ==> r.started[n] == e.started[n])
      && r.order == Drop(e.order, names)
    decreases |names|
  {
    if names == [] {
      DropNone(e.order);
    } else {
      var k := |names| - 1;
      var p := names[..k];
      var x := names[k];
      assert names == p + [x];
      StopAllKeys(e, p, clock, baseline);
      var q := StopAll(e, p, clock, baseline);
      assert x in q.started;
      StopKeepsWellFormed(q, x, [], clock(k), baseline);
      DropOneMore(e.order, p, x);
      var r := StopAll(e, names, clock, baseline);
      assert r.started == q.started - {x};
      forall n ensures n in r.started <==> n in e.started && n !in names {
        assert n in names <==> n in p || n == x;
      }
    }
  }

  /** Force-stopping one more name of the list is one more stop. */
  lemma StopAllNext(e: Engine, names: seq<string>, clock: nat -> int, baseline: int, i: int)
    requires 0 <= i < |names|
    ensures StopAll(e, names[..i + 1], clock, baseline)
      == StopSpec(StopAll(e, names[..i], clock, baseline), names[i], [], clock(i), baseline)
  {
    assert names[..i + 1][..i] == names[..i];
  }

  /** A prefix of a list without repeats has none either, and does not hold the next name. */
  lemma DistinctPrefix(names: seq<string>, i: int)
    requires Distinct(names) && 0 <= i < |names|
    ensures Distinct(names[..i]) && names[i] !in names[..i]
    ensures forall n :: n in names[..i] ==> n in names
  {
  }

  /** A measure whose name is not among those force-stopped stays in flight untouched. */
  lemma StopAllLeaves(e: Engine, names: seq<string>, clock: nat -> int, baseline: int, x: string)
    requires WellFormed(e) && Distinct(names)
    requires forall n :: n in names ==> n in e.started
    requires x in e.started && x !in names
    ensures x in StopAll(e, names, clock, baseline).started
    ensures StopAll(e, names, clock, baseline).started[x] == e.started[x]
  {
    StopAllKeys(e, names, clock, baseline);
  }

  /** ...and appends one span per name, in order, after the spans already there. */
  lemma {:induction false} StopAllSpans(e: Engine, names: seq<string>, clock: nat -> int, baseline: int)
    requires WellFormed(e) && Distinct(names)
    requires forall n :: n in names ==> n in e.started
    ensures StopAll(e, names, clock, baseline).measures == e.measures + ForcedSpans(e.started, names, clock, baseline)
    decreases |names|
  {
    if names != [] {
      var k := |names| - 1;
      var p := names[..k];
      var x := names[k];
      assert names == p + [x];
      assert Distinct(p) && x !in p;
      StopAllSpans(e, p, clock, baseline);
      StopAllLeaves(e, p, clock, baseline, x);
      var q := StopAll(e, p, clock, baseline);
      var s := Finish(e.started[x], clock(k), baseline, []);
      assert StopAll(e, names, clock, baseline).measures == q.measures + [s];
      assert ForcedSpans(e.started, names, clock, baseline) == ForcedSpans(e.started, p, clock, baseline) + [s];
    }
  }

  /** After collect() no measure is in flight. */
  lemma CollectDrains(e: Engine, clock: nat -> int, baseline: int)
    requires WellFormed(e)
    ensures CollectSpec(e, clock, baseline).started == map[]
    ensures CollectSpec(e, clock, baseline).order == []
  {
    StopAllKeys(e, e.order, clock, baseline);
    var r := StopAll(e, e.order, clock, baseline);
    forall n ensures n !in r.started {
      if n !in e.order {
        assert n !in e.started;
      }
    }
    DropEverything(e.order, e.order);
  }

  /**
   * collect() keeps the spans already completed and appends one span per
   * measure that was in flight, in key order; the i-th ends at clock(i).
   */
  lemma CollectAppends(e: Engine, clock: nat -> int, baseline: int)
    requires WellFormed(e)
    ensures var r := CollectSpec(e, clock, baseline);
      |r.measures| == |e.measures| + |e.order|
      && r.measures[..|e.measures|] == e.measures
      && forall i :: 0 <= i < |e.order| ==>
           r.measures[|e.measures| + i] == Finish(e.started[e.order[i]], clock(i), baseline, [])
  {
    StopAllSpans(e, e.order, clock, baseline);
    ForcedSpansAt(e.started, e.order, clock, baseline);
    var r := StopAll(e, e.order, clock, baseline);
    var f := ForcedSpans(e.started, e.order, clock, baseline);
    assert r.measures == e.measures + f;
    forall i | 0 <= i < |e.order|
      ensures r.measures[|e.measures| + i] == Finish(e.started[e.order[i]], clock(i), baseline, [])
    {
      assert r.measures[|e.measures| + i] == f[i];
    }
  }

  /** A second collect() finds nothing in flight and returns the same list. */
  lemma CollectTwice(e: Engine, clock: nat -> int, clock': nat -> int, baseline: int)
    requires WellFormed(e)
    ensures CollectSpec(CollectSpec(e, clock, baseline), clock', baseline) == CollectSpec(e, clock, baseline)
  {
    CollectDrains(e, clock, baseline);
  }

  /**
   * Baseline 1000 s, explicit start 1500 s, collected at 1900 s: one span
   * starting at 500000 ms and lasting 400000 ms, with an empty context.
   */
  lemma FixedStartScenario()
    ensures var e := StartSpec(Empty, "measure", "request", Some("GET"), Some("GET /endpoint"), 1500000000, 1000000000);
      CollectSpec(e, _ => 1900000000, 1000000000).measures
        == [Span("GET /endpoint", 500000.0, 400000.0, "request", Some("GET"), Some([]))]
  {
    var e := StartSpec(Empty, "measure", "request", Some("GET"), Some("GET /endpoint"), 1500000000, 1000000000);
    var clock: nat -> int := _ => 1900000000;
    assert e.order == ["measure"] && e.order[..0] == [];
    assert e.started["measure"] == Measure("GET /endpoint", 500000000, "request", Some("GET"));
    assert StopAll(e, e.order, clock, 1000000000) == StopSpec(e, "measure", [], 1900000000, 1000000000);
    assert Time.ToMilliseconds(500000000) == 500000.0;
    assert Time.ToMilliseconds(400000000) == 400000.0;
  }

  /** Baseline 0, explicit start 1000 s: the span starts at 1000000 ms. */
  lemma ZeroBaselineScenario(end: int)
    ensures var e := StartSpec(Empty, "measure", "request", Some("GET"), Some("GET /endpoint"), 1000000000, 0);
      var r := CollectSpec(e, _ => end, 0);
      |r.measures| == 1 && r.measures[0].start == 1000000.0
  {
    var e := StartSpec(Empty, "measure", "request", Some("GET"), Some("GET /endpoint"), 1000000000, 0);
    var clock: nat -> int := _ => end;
    assert e.order == ["measure"] && e.order[..0] == [];
    assert StopAll(e, e.order, clock, 0) == StopSpec(e, "measure", [], end, 0);
    assert Time.ToMilliseconds(1000000000) == 1000000.0;
  }

  // ---------------------------------------------------------------------------
  // The collector object

  class TimelineCollector {
    /** getName(): fixed per collector kind. */
    const name: string
    /** The request start instant (µs), read once when the collector is built. */
    const baseline: int
    var started: map<string, Measure>
    var order: seq<string>
    var measures: seq<Span>
    /** Lines written through Log::warning. */
    ghost var log: seq<LogEntry>

    function State(): Engine
      reads this
    {
      Engine(started, order, measures)
    }

    predicate Valid()
      reads this
    {
      WellFormed(State())
    }

    /** EventDataCollector: offsets are taken from a RequestStartTime cell. */
    constructor FromStartTime(name: string, startTime: StartTime.RequestStartTime)
      ensures this.name == name && baseline == startTime.Microseconds()
      ensures Valid() && State() == Empty && log == []
    {
      this.name := name;
      baseline := startTime.Microseconds();
      started := map[];
      order := [];
      measures := [];
      log := [];
    }

    /** TimelineDataCollector: offsets are taken from the agent's request start time. */
    constructor FromAgent(requestStartTime: int, name: string := "timeline")
      ensures this.name == name && baseline == requestStartTime
      ensures Valid() && State() == Empty && log == []
    {
      this.name := name;
      baseline := requestStartTime;
      started := map[];
      order := [];
      measures := [];
      log := [];
    }

    method GetName() returns (r: string)
      ensures r == name
    {
      r := name;
    }

    /** `now` is the clock reading; an explicit startTime takes precedence over it. */
    method StartMeasure(now: int, name: string, measureType: string := "request",
                        action: Option<string> := None, labelText: Option<string> := None,
                        startTime: Option<int> := None)
      requires Valid()
      modifies this
      ensures Valid()
      ensures State() == StartSpec(old(State()), name, measureType, action, labelText, startTime.GetOr(now), baseline)
      ensures log == old(log) + StartWarnings(old(State()), name)
      ensures name !in old(started) ==>
        started[name] == Measure(LabelFor(name, labelText), startTime.GetOr(now) - baseline, measureType, action)
    {
      var start := startTime.GetOr(now);
      if name in started {
        log := log + [Warning("Did not start measure '" + name + "' because it's already started.")];
        return;
      }
      started := started[name := Measure(LabelFor(name, labelText), start - baseline, measureType, action)];
      order := order + [name];
    }

    method HasStartedMeasure(name: string) returns (r: bool)
      requires Valid()
      ensures r <==> name in started
    {
      r := name in started;
    }

    method StopMeasure(name: string, params: Assoc, now: int)
      requires Valid()
      modifies this
      ensures Valid()
      ensures State() == StopSpec(old(State()), name, params, now, baseline)
      ensures log == old(log) + StopWarnings(old(State()), name)
      ensures name in old(started) ==>
        name !in started && measures == old(measures) + [Finish(old(started)[name], now, baseline, params)]
    {
      if name !in started {
        log := log + [Warning("Did not stop measure '" + name + "' because it hasn't been started.")];
        return;
      }
      var m := started[name];
      StopKeepsWellFormed(State(), name, params, now, baseline);
      started := started - {name};
      order := Without(order, name);
      measures := measures + [MakeSpan(m.labelText, m.start, now - baseline, m.measureType, m.action, Some(params))];
    }

    /** start and end are offsets from the baseline, in microseconds. */
    method AddMeasure(labelText: string, start: int, end: int, measureType: string := "request",
                      action: Option<string> := Some("request"), context: Option<Assoc> := Some([]))
      requires Valid()
      modifies this
      ensures Valid()
      ensures State() == AddSpec(old(State()), labelText, start, end, measureType, action, context)
      ensures log == old(log)
    {
      measures := measures + [MakeSpan(labelText, start, end, measureType, action, context)];
    }

    /** Stops every measure still in flight (the i-th at clock(i)) and returns the list. */
    method Collect(clock: nat -> int) returns (spans: seq<Span>)
      requires Valid()
      modifies this
      ensures Valid()
      ensures State() == CollectSpec(old(State()), clock, baseline)
      ensures spans == measures
      ensures log == old(log)
    {
      var names := order;
      ghost var e0 := State();
      var i := 0;
      while i < |names|
        invariant 0 <= i <= |names|
        invariant Valid()
        invariant State() == StopAll(e0, names[..i], clock, baseline)
        invariant log == old(log)
      {
        StopAllNext(e0, names, clock, baseline, i);
        DistinctPrefix(names, i);
        StopAllLeaves(e0, names[..i], clock, baseline, names[i]);
        StopMeasure(names[i], [], clock(i));
        i := i + 1;
      }
      assert names[..i] == names;
      spans := measures;
    }
  }
}
