/**
 * What Agent::collectEvents turns the collected measures into: per collector
 * the list is capped with Collection::take, and every measure becomes a
 * LazySpan event parented to the transaction.
 */
module SpanEmission {
  import opened Php
  import opened Timeline
  import opened LazySpans

  /** The exceptions the agent, its client library and the span setters can raise. */
  datatype AgentError =
    | UnknownTransaction(name: string)
    | DuplicateTransaction(name: string)
    | NoCurrentTransaction
    | TypeError(member: string, expected: string)  // `member` required a value of type `expected`, null given
    | ClientException(responseBody: string)
    | Throwable(message: string)

  /** setAction(string) and setContext(array) reject a null argument. */
  const ACTION_NULL: AgentError := TypeError("LazySpan::setAction", "string")
  const CONTEXT_NULL: AgentError := TypeError("LazySpan::setContext", "array")

  function Min(a: int, b: int): int {
    if a <= b then a else b
  }

  /**
   * Collection::take: a non-negative limit keeps the first items, a negative
   * one the last items, and a null limit keeps everything.
   */
  function Take(s: seq<Span>, limit: Option<int>): (r: seq<Span>)
    ensures limit.Some? && limit.value >= 0 ==> |r| == Min(limit.value, |s|) && r == s[..|r|]
    ensures limit.Some? && limit.value < 0 ==> |r| == Min(-limit.value, |s|) && r == s[|s| - |r|..]
    ensures limit.None? ==> r == s
  {
    match limit
    case None => s
    case Some(n) =>
      if n >= 0 then s[..Min(n, |s|)]
      else s[|s| - Min(-n, |s|)..]
  }

  /** The event built from a measure whose action and context are present. */
  function Built(p: Parent, m: Span, action: string, context: Assoc): SpanState {
    Initial(m.labelText, p).(
      spanType := Trim(m.spanType, Whitespace),
      action := Some(Trim(action, Whitespace)),
      contexts := Merge(DefaultContexts, context),
      startTime := Some(m.start),
      timestamp := p.timestamp as real + m.start * 1000.0,
      duration := m.duration)
  }

  /**
   * The event collectEvents builds from one measure: a LazySpan named after the
   * label, then setType, setAction, setContext, setStartTime, setDuration. A
   * null action or context makes the typed setter throw.
   */
  function Emit(p: Parent, m: Span): Result<SpanState, AgentError> {
    if m.action.None? then Err(ACTION_NULL)
    else if m.context.None? then Err(CONTEXT_NULL)
    else Ok(Built(p, m, m.action.value, m.context.value))
  }

  /** An emitted event copies the measure: label, type, action, context, start and duration. */
  lemma EmitCopies(p: Parent, m: Span)
    ensures Emit(p, m).Ok? <==> m.action.Some? && m.context.Some?
    ensures m.action.None? ==> Emit(p, m) == Err(ACTION_NULL)
    ensures Emit(p, m).Ok? ==>
      var s := Emit(p, m).value;
      s.name == Trim(m.labelText, Whitespace) && s.parent == p
      && s.spanType == Trim(m.spanType, Whitespace) && s.action == Some(Trim(m.action.value, Whitespace))
      && s.contexts == Merge(DefaultContexts, m.context.value)
      && s.startTime == Some(m.start) && s.duration == m.duration
      && s.timestamp == p.timestamp as real + m.start * 1000.0
  {
  }

  /** The measure's own context keys are kept, over the default custom and labels entries. */
  lemma EmittedContext(p: Parent, m: Span, k: string)
    requires m.action.Some? && m.context.Some? && UniqueKeys(m.context.value)
    ensures Lookup(Emit(p, m).value.contexts, k)
      == if k in Keys(m.context.value) then Lookup(m.context.value, k) else Lookup(DefaultContexts, k)
  {
    MergeLookup(DefaultContexts, m.context.value, k);
  }

  /** The outcome of building an event for each measure. */
  function Outcomes(p: Parent, spans: seq<Span>): (r: seq<Result<SpanState, AgentError>>)
    ensures |r| == |spans| && forall i :: 0 <= i < |spans| ==> r[i] == Emit(p, spans[i])
  {
    seq(|spans|, i requires 0 <= i < |spans| => Emit(p, spans[i]))
  }

  /** The events put for one collector's measures, and the error that cut the list short, if any. */
  datatype Emission = Emission(events: seq<SpanState>, failure: Option<AgentError>)

  /** Events are put one by one until the first failure, which ends the run. */
  function Gather(outs: seq<Result<SpanState, AgentError>>): Emission
    decreases |outs|
  {
    if outs == [] then Emission([], None)
    else
      var prev := Gather(outs[..|outs| - 1]);
      if prev.failure.Some? then prev
      else
        match outs[|outs| - 1]
        case Ok(s) => Emission(prev.events + [s], None)
        case Err(e) => Emission(prev.events, Some(e))
  }

  /** Once an outcome has failed, the ones after it add nothing. */
  lemma {:induction false} GatherSticks(outs: seq<Result<SpanState, AgentError>>, k: nat)
    requires k <= |outs| && Gather(outs[..k]).failure.Some?
    ensures Gather(outs) == Gather(outs[..k])
    decreases |outs|
  {
    if k < |outs| {
      var n := |outs| - 1;
      assert outs[..n][..k] == outs[..k];
      GatherSticks(outs[..n], k);
    } else {
      assert outs[..k] == outs;
    }
  }

  /** Without a failure every outcome gives exactly one event, in order. */
  lemma {:induction false} GatherComplete(outs: seq<Result<SpanState, AgentError>>)
    requires forall i :: 0 <= i < |outs| ==> outs[i].Ok?
    ensures Gather(outs).failure.None? && |Gather(outs).events| == |outs|
    ensures forall i :: 0 <= i < |outs| ==> Gather(outs).events[i] == outs[i].value
    decreases |outs|
  {
    if outs != [] {
      var n := |outs| - 1;
      GatherComplete(outs[..n]);
      forall i | 0 <= i < |outs| ensures Gather(outs).events[i] == outs[i].value {
        if i < n {
          assert outs[..n][i] == outs[i];
        }
      }
    }
  }

  /** The first failing measure decides the error, and the events before it are all put. */
  lemma {:induction false} GatherFailure(outs: seq<Result<SpanState, AgentError>>, k: nat)
    requires k < |outs| && outs[k].Err?
    requires forall i :: 0 <= i < k ==> outs[i].Ok?
    ensures Gather(outs).failure == Some(outs[k].error) && |Gather(outs).events| == k
  {
    assert outs[..k + 1][..k] == outs[..k];
    GatherComplete(outs[..k]);
    GatherSticks(outs, k + 1);
  }

  /** Measures whose action and context are all present are all emitted. */
  lemma EmitAll(p: Parent, spans: seq<Span>)
    requires forall i :: 0 <= i < |spans| ==> spans[i].action.Some? && spans[i].context.Some?
    ensures Gather(Outcomes(p, spans)).failure.None? && |Gather(Outcomes(p, spans)).events| == |spans|
  {
    GatherComplete(Outcomes(p, spans));
  }

  /** What a whole collectEvents run produces: events, collectors collected, and the error, if any. */
  datatype Run = Run(events: seq<SpanState>, collected: nat, failure: Option<AgentError>)

  /** The collectors' emissions in registration order; the first failure ends the run. */
  function RunAll(ems: seq<Emission>): (r: Run)
    ensures r.collected <= |ems|
    ensures r.failure.None? ==> r.collected == |ems|
    decreases |ems|
  {
    if ems == [] then Run([], 0, None)
    else
      var prev := RunAll(ems[..|ems| - 1]);
      if prev.failure.Some? then prev
      else
        var em := ems[|ems| - 1];
        Run(prev.events + em.events, prev.collected + 1, em.failure)
  }

  /** After the collector that failed, no further collector is collected and no event is put. */
  lemma {:induction false} RunAllSticks(ems: seq<Emission>, k: nat)
    requires k <= |ems| && RunAll(ems[..k]).failure.Some?
    ensures RunAll(ems) == RunAll(ems[..k])
    decreases |ems|
  {
    if k < |ems| {
      var n := |ems| - 1;
      assert ems[..n][..k] == ems[..k];
      RunAllSticks(ems[..n], k);
    } else {
      assert ems[..k] == ems;
    }
  }

  /** A run that has not failed yet goes on with the next collector's emission. */
  lemma RunAllStep(ems: seq<Emission>, k: nat)
    requires k < |ems| && RunAll(ems[..k]).failure.None?
    ensures RunAll(ems[..k + 1])
      == Run(RunAll(ems[..k]).events + ems[k].events, k + 1, ems[k].failure)
  {
    var s := ems[..k + 1];
    assert s[..|s| - 1] == ems[..k] && s[|s| - 1] == ems[k];
  }

  function Total(ems: seq<Emission>): nat
    decreases |ems|
  {
    if ems == [] then 0 else Total(ems[..|ems| - 1]) + |ems[|ems| - 1].events|
  }

  /** Without a failing collector, every collector is collected and all their events are put. */
  lemma {:induction false} RunAllComplete(ems: seq<Emission>)
    requires forall j :: 0 <= j < |ems| ==> ems[j].failure.None?
    ensures RunAll(ems).failure.None? && RunAll(ems).collected == |ems|
    ensures |RunAll(ems).events| == Total(ems)
    decreases |ems|
  {
    if ems != [] {
      RunAllComplete(ems[..|ems| - 1]);
    }
  }

  /** A registered collector as collectEvents finds it: its name, baseline and state. */
  datatype Entry = Entry(name: string, baseline: int, engine: Engine)

  /** The clock readings seen by the collector called `name` during its collect(). */
  function ClockFor(clock: (string, nat) -> int, name: string): nat -> int {
    (i: nat) => clock(name, i)
  }

  /** The collector's state after its collect(). */
  function Advance(e: Entry, clock: (string, nat) -> int): Engine {
    CollectSpec(e.engine, ClockFor(clock, e.name), e.baseline)
  }

  /** What a collector hands over: its collected list, capped per collector. */
  function Handed(e: Entry, clock: (string, nat) -> int, maxTraceItems: Option<int>): seq<Span> {
    Take(Advance(e, clock).measures, maxTraceItems)
  }

  /** The events one collector puts, and the setter failure that stops it, if any. */
  function EmissionOf(p: Parent, e: Entry, clock: (string, nat) -> int, maxTraceItems: Option<int>): Emission {
    Gather(Outcomes(p, Handed(e, clock, maxTraceItems)))
  }

  /** One emission per registered collector, in registration order. */
  function EmissionsOf(p: Parent, entries: seq<Entry>, clock: (string, nat) -> int, maxTraceItems: Option<int>)
    : (r: seq<Emission>)
    ensures |r| == |entries|
    ensures forall j :: 0 <= j < |entries| ==> r[j] == EmissionOf(p, entries[j], clock, maxTraceItems)
  {
    seq(|entries|, j requires 0 <= j < |entries| => EmissionOf(p, entries[j], clock, maxTraceItems))
  }

  /** The registry's entries once the first k collectors have been collected. */
  function Progressed(entries: seq<Entry>, clock: (string, nat) -> int, k: int): (r: seq<Entry>)
    ensures |r| == |entries|
    ensures forall j :: 0 <= j < |entries| ==>
      r[j] == if j < k then entries[j].(engine := Advance(entries[j], clock)) else entries[j]
  {
    seq(|entries|, j requires 0 <= j < |entries| =>
      if j < k then entries[j].(engine := Advance(entries[j], clock)) else entries[j])
  }

  /** Collecting the k-th collector advances exactly its entry. */
  lemma ProgressedStep(entries: seq<Entry>, clock: (string, nat) -> int, k: nat)
    requires k < |entries|
    ensures Progressed(entries, clock, k + 1)
      == Progressed(entries, clock, k)[k := entries[k].(engine := Advance(entries[k], clock))]
  {
  }

  /** The cap applies per collector: no collector contributes more than maxTraceItems measures. */
  lemma PerCollectorCap(e: Entry, clock: (string, nat) -> int, n: int)
    requires n >= 0
    ensures |Handed(e, clock, Some(n))| <= n
  {
  }

  /** A collector with nothing in flight hands over exactly the measures it holds. */
  lemma CollectIdle(e: Engine, clock: nat -> int, baseline: int)
    requires WellFormed(e) && e.order == []
    ensures CollectSpec(e, clock, baseline).measures == e.measures
  {
    CollectAppends(e, clock, baseline);
  }

  /** An idle collector with at most 1000 complete measures hands all of them over as events. */
  lemma IdleEmission(p: Parent, en: Entry, clock: (string, nat) -> int)
    requires WellFormed(en.engine) && en.engine.order == [] && |en.engine.measures| <= 1000
    requires forall i :: 0 <= i < |en.engine.measures| ==>
      en.engine.measures[i].action.Some? && en.engine.measures[i].context.Some?
    ensures var em := EmissionOf(p, en, clock, Some(1000));
      em.failure.None? && |em.events| == |en.engine.measures|
  {
    CollectIdle(en.engine, ClockFor(clock, en.name), en.baseline);
    var b := Handed(en, clock, Some(1000));
    assert b == en.engine.measures;
    EmitAll(p, b);
  }

  lemma TotalOfTwo(x: Emission, y: Emission)
    ensures Total([x, y]) == |x.events| + |y.events|
  {
    assert [x][..0] == [];
    assert Total([x]) == |x.events|;
    assert [x, y][..1] == [x];
    assert Total([x, y]) == Total([x]) + |y.events|;
  }

  /**
   * Two collectors holding 3 and 5 completed measures (nothing in flight),
   * all with an action and a context, under the default cap of 1000: 8 events
   * are put.
   */
  lemma ThreePlusFive(p: Parent, a: Entry, b: Entry, clock: (string, nat) -> int)
    requires WellFormed(a.engine) && WellFormed(b.engine)
    requires a.engine.order == [] && |a.engine.measures| == 3
    requires b.engine.order == [] && |b.engine.measures| == 5
    requires forall i :: 0 <= i < 3 ==> a.engine.measures[i].action.Some? && a.engine.measures[i].context.Some?
    requires forall i :: 0 <= i < 5 ==> b.engine.measures[i].action.Some? && b.engine.measures[i].context.Some?
    ensures |RunAll(EmissionsOf(p, [a, b], clock, Some(1000))).events| == 8
  {
    IdleEmission(p, a, clock);
    IdleEmission(p, b, clock);
    var ems := EmissionsOf(p, [a, b], clock, Some(1000));
    assert ems == [ems[0], ems[1]];
    RunAllComplete(ems);
    TotalOfTwo(ems[0], ems[1]);
  }

  /** The three setters that take the measure's type, action and context. */
  method Describe(ev: LazySpan, spanType: string, action: string, context: Assoc)
    modifies ev
    ensures ev.State() == old(ev.State()).(
      spanType := Trim(spanType, Whitespace),
      action := Some(Trim(action, Whitespace)),
      contexts := Merge(old(ev.contexts), context))
  {
    ev.SetType(spanType);
    ev.SetAction(action);
    ev.SetContext(context);
  }

  /** The two setters that take the measure's start and duration. */
  method Place(ev: LazySpan, start: real, duration: real)
    modifies ev
    ensures ev.State() == old(ev.State()).(
      startTime := Some(start), timestamp := old(ev.timestamp) + start * 1000.0, duration := duration)
  {
    ev.SetStartTime(start);
    ev.SetDuration(duration);
  }

  /** A new LazySpan for the measure, given its action and context, after the five setters. */
  method Fill(p: Parent, m: Span, action: string, context: Assoc) returns (s: SpanState)
    ensures s == Built(p, m, action, context)
  {
    var ev := new LazySpan(m.labelText, p);
    Describe(ev, m.spanType, action, context);
    Place(ev, m.start, m.duration);
    s := ev.State();
  }

  /** The LazySpan collectEvents builds from one measure, or the TypeError a null setter argument raises. */
  method BuildEvent(p: Parent, m: Span) returns (r: Result<SpanState, AgentError>)
    ensures r == Emit(p, m)
  {
    if m.action.None? {
      return Err(ACTION_NULL);
    }
    if m.context.None? {
      return Err(CONTEXT_NULL);
    }
    var s := Fill(p, m, m.action.value, m.context.value);
    r := Ok(s);
  }
}
