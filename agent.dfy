/**
 * The agent: an insertion-ordered registry of collectors keyed by name, the
 * request start time, and the part of the APM client the package drives
 * (transactions, the outgoing event queue, the current-transaction slot).
 */
module Agents {
  import opened Php
  import opened Timeline
  import opened LazySpans
  import opened SpanEmission
  import DbQueries
  import HttpRequests
  import JobEvents
  import ManualSpans
  import FrameworkBoot

  /** A transaction as the client library keeps it; `event` carries its ids and timestamp. */
  datatype Transaction = Transaction(
    name: string,
    event: Parent,
    context: Assoc,
    meta: Assoc,
    userContext: Assoc,
    customContext: Assoc,
    response: Assoc,
    stopMeta: Option<Assoc>)

  /** The agent operations collectors and middleware call, in the order they call them. */
  datatype Call =
    | StartCall(name: string)
    | StopCall(name: string, meta: Assoc)
    | CollectCall(name: string)
    | SendCall
    | CaptureCall(message: string, context: Assoc, parent: Option<string>)  // captureThrowable, with the parent transaction's name

  /** How the APM server transport answers a send. */
  datatype SendOutcome = Delivered | Rejected(responseBody: string) | Broken(message: string)

  /** The collectors registerCollectors resolves, in the order it adds them. */
  function Selected(cli: bool, querylogEnabled: Value, db: TimelineCollector, http: TimelineCollector,
                    job: TimelineCollector, span: TimelineCollector): seq<TimelineCollector>
  {
    (if querylogEnabled != Bool(false) then [db] else [])
      + (if !cli then [http] else [])
      + [job]
      + [span]
  }

  /** The collector registry: names in registration order and the collector filed under each. */
  datatype Registry = Registry(names: seq<string>, collectors: map<string, TimelineCollector>)

  /** addCollector: a new name is appended, a known one keeps its place and gets the new object. */
  function Add(r: Registry, c: TimelineCollector): Registry {
    Registry(if c.name in r.collectors then r.names else r.names + [c.name], r.collectors[c.name := c])
  }

  function AddAll(r: Registry, cs: seq<TimelineCollector>): Registry
    decreases |cs|
  {
    if cs == [] then r else Add(AddAll(r, cs[..|cs| - 1]), cs[|cs| - 1])
  }

  lemma AddAllSnoc(r: Registry, cs: seq<TimelineCollector>, c: TimelineCollector)
    ensures AddAll(r, cs + [c]) == Add(AddAll(r, cs), c)
  {
    assert (cs + [c])[..|cs|] == cs;
  }

  /** The i-th and the j-th registered names differ. */
  predicate NamedApart(r: Registry, i: int, j: int)
    requires 0 <= i < |r.names| && 0 <= j < |r.names|
  {
    r.names[i] != r.names[j]
  }

  /** The registry lists each name once, in order, and every collector is filed under its own name. */
  predicate Consistent(r: Registry) {
    (forall i, j :: 0 <= i < j < |r.names| ==> NamedApart(r, i, j))
    && (forall n :: n in r.collectors ==> n in r.names)
    && (forall n :: n in r.names ==> n in r.collectors)
    && (forall n :: n in r.collectors ==> r.collectors[n].name == n)
  }

  /** Registering keeps each name listed once and every collector filed under its own name. */
  lemma AddConsistent(r: Registry, c: TimelineCollector)
    requires Consistent(r)
    ensures Consistent(Add(r, c))
  {
    var a := Add(r, c);
    assert c.name !in r.collectors ==> c.name !in r.names;
    forall i, j | 0 <= i < j < |a.names| ensures NamedApart(a, i, j) {
      if j == |r.names| {
        assert a.names[i] in r.names;
      } else {
        assert NamedApart(r, i, j);
      }
    }
  }

  /** Two registered names never share a collector object. */
  lemma FiledApart(r: Registry, i: int, j: int)
    requires Consistent(r) && 0 <= i < |r.names| && 0 <= j < |r.names| && i != j
    ensures r.collectors[r.names[i]] != r.collectors[r.names[j]]
  {
    assert r.collectors[r.names[i]].name == r.names[i];
    if i < j {
      assert NamedApart(r, i, j);
    } else {
      assert NamedApart(r, j, i);
    }
  }

  function NamesOf(cs: seq<TimelineCollector>): (ns: seq<string>)
    ensures |ns| == |cs| && forall i :: 0 <= i < |cs| ==> ns[i] == cs[i].name
  {
    seq(|cs|, i requires 0 <= i < |cs| => cs[i].name)
  }

  /** Collectors with new, distinct names are appended in order and filed under their names. */
  lemma {:induction false} AddAllFresh(r: Registry, cs: seq<TimelineCollector>)
    requires Distinct(NamesOf(cs)) && forall i :: 0 <= i < |cs| ==> cs[i].name !in r.collectors
    ensures AddAll(r, cs).names == r.names + NamesOf(cs)
    ensures forall k :: k in AddAll(r, cs).collectors ==> k in r.collectors || k in NamesOf(cs)
    decreases |cs|
  {
    if cs != [] {
      var n := |cs| - 1;
      assert NamesOf(cs[..n]) == NamesOf(cs)[..n];
      AddAllFresh(r, cs[..n]);
      assert NamesOf(cs) == NamesOf(cs[..n]) + [cs[n].name];
    }
  }

  /**
   * Registration on an empty registry: the query collector unless
   * querylog.enabled is false, the request collector outside the console, then
   * the job and span collectors.
   */
  lemma RegisteredNames(cli: bool, querylogEnabled: Value, db: TimelineCollector, http: TimelineCollector,
                        job: TimelineCollector, span: TimelineCollector)
    requires db.name == DbQueries.NAME && http.name == HttpRequests.NAME
    requires job.name == JobEvents.NAME && span.name == ManualSpans.NAME
    ensures AddAll(Registry([], map[]), Selected(cli, querylogEnabled, db, http, job, span)).names
      == (if querylogEnabled != Bool(false) then ["query-collector"] else [])
         + (if !cli then ["request-collector"] else [])
         + ["job-collector", "span-collector"]
  {
    var sel := Selected(cli, querylogEnabled, db, http, job, span);
    var expected := (if querylogEnabled != Bool(false) then ["query-collector"] else [])
      + (if !cli then ["request-collector"] else [])
      + ["job-collector", "span-collector"];
    assert NamesOf(sel) == expected;
    AddAllFresh(Registry([], map[]), sel);
  }

  lemma AppendAssociates<T>(a: seq<T>, b: seq<T>, c: seq<T>)
    ensures (a + b) + c == a + (b + c)
  {
  }

  /**
   * The APM client's side of the agent: the transactions by name, the current
   * transaction, the events put and not yet sent, and the agent operations
   * called so far.
   */
  datatype Client = Client(
    transactions: map<string, Transaction>,
    current: Option<string>,
    events: seq<SpanState>,
    calls: seq<Call>)

  class Agent {
    var names: seq<string>
    var collectors: map<string, TimelineCollector>
    /** Epoch time in microseconds. */
    var requestStartTime: int
    var client: Client
    /** Every collector object ever registered: the footprint of the registry. */
    ghost var repr: set<TimelineCollector>

    ghost predicate CollectorsValid()
      reads this`collectors, this`repr, repr
    {
      forall n :: n in collectors ==> collectors[n] in repr && collectors[n].Valid()
    }

    ghost predicate Valid()
      reads this`names, this`collectors, this`repr, repr
    {
      Consistent(Reg()) && CollectorsValid()
    }

    function Reg(): Registry
      reads this`names, this`collectors
    {
      Registry(names, collectors)
    }

    ghost function Entries(ns: seq<string>): (r: seq<Entry>)
      reads this`collectors, this`repr, repr
      requires forall n :: n in ns ==> n in collectors && collectors[n] in repr
      ensures |r| == |ns|
      decreases |ns|
    {
      if ns == [] then []
      else
        var n := |ns| - 1;
        assert forall m :: m in ns[..n] ==> m in ns;
        var c := collectors[ns[n]];
        Entries(ns[..n]) + [Entry(ns[n], c.baseline, c.State())]
    }

    /** The j-th entry holds the j-th named collector's name, baseline and state. */
    lemma {:induction false} EntriesAt(ns: seq<string>)
      requires forall n :: n in ns ==> n in collectors && collectors[n] in repr
      ensures forall j :: 0 <= j < |ns| ==>
        Entries(ns)[j] == Entry(ns[j], collectors[ns[j]].baseline, collectors[ns[j]].State())
      decreases |ns|
    {
      if ns != [] {
        var n := |ns| - 1;
        assert forall m :: m in ns[..n] ==> m in ns;
        EntriesAt(ns[..n]);
      }
    }

    /** initialize(): the request start time is the clock reading, and no collector is registered. */
    constructor (now: int)
      ensures Valid() && names == [] && collectors == map[] && repr == {} && requestStartTime == now
      ensures client == Client(map[], None, [], [])
    {
      names := [];
      collectors := map[];
      requestStartTime := now;
      client := Client(map[], None, [], []);
      repr := {};
    }

    method AddCollector(c: TimelineCollector)
      requires Valid() && c.Valid()
      modifies this`names, this`collectors, this`repr
      ensures Valid()
      ensures Reg() == Add(old(Reg()), c) && repr == old(repr) + {c}
    {
      AddConsistent(Reg(), c);
      if c.name !in collectors {
        names := names + [c.name];
      }
      collectors := collectors[c.name := c];
      repr := repr + {c};
    }

    /** getCollector: the collector filed under name; its return type rejects the null an unknown name gives. */
    method GetCollector(name: string) returns (r: Result<TimelineCollector, AgentError>)
      ensures name in collectors ==> r == Ok(collectors[name])
      ensures name !in collectors ==> r == Err(TypeError("Agent::getCollector", "DataCollector"))
    {
      if name in collectors {
        r := Ok(collectors[name]);
      } else {
        r := Err(TypeError("Agent::getCollector", "DataCollector"));
      }
    }

    /** registerInitCollectors: the framework collector, only outside the console. */
    method RegisterInitCollectors(cli: bool, framework: TimelineCollector)
      requires Valid() && framework.Valid()
      modifies this`names, this`collectors, this`repr
      ensures Valid()
      ensures Reg() == if cli then old(Reg()) else Add(old(Reg()), framework)
    {
      if !cli {
        AddCollector(framework);
      }
    }

    /** registerCollectors; querylogEnabled is the querylog.enabled setting. */
    method RegisterCollectors(cli: bool, querylogEnabled: Value, db: TimelineCollector, http: TimelineCollector,
                              job: TimelineCollector, span: TimelineCollector)
      requires Valid() && db.Valid() && http.Valid() && job.Valid() && span.Valid()
      modifies this`names, this`collectors, this`repr
      ensures Valid()
      ensures Reg() == AddAll(old(Reg()), Selected(cli, querylogEnabled, db, http, job, span))
    {
      ghost var r0 := Reg();
      ghost var done: seq<TimelineCollector> := if querylogEnabled != Bool(false) then [db] else [];
      if querylogEnabled != Bool(false) {
        AddCollector(db);
        AddAllSnoc(r0, [], db);
      }
      ghost var next: seq<TimelineCollector> := done + (if !cli then [http] else []);
      if !cli {
        AddCollector(http);
        AddAllSnoc(r0, done, http);
      } else {
        assert next == done;
      }
      AddCollector(job);
      AddAllSnoc(r0, next, job);
      AddCollector(span);
      AddAllSnoc(r0, next + [job], span);
    }

    method SetRequestStartTime(t: int)
      modifies this`requestStartTime
      ensures requestStartTime == t
    {
      requestStartTime := t;
    }

    method GetRequestStartTime() returns (t: int)
      ensures t == requestStartTime
    {
      t := requestStartTime;
    }

    // -------------------------------------------------------------------------
    // Transactions and the event queue (the APM client's side). Each of these
    // leaves the registry and the collectors alone.

    /** startTransaction: a new transaction, which becomes the current one; a taken name throws. */
    method StartTransaction(name: string, context: Assoc, event: Parent) returns (r: Result<Transaction, AgentError>)
      modifies this`client
      ensures old(Valid()) ==> Valid() && Entries(names) == old(Entries(names))
      ensures client.calls == old(client.calls) + [StartCall(name)]
      ensures name in old(client.transactions) ==>
        r == Err(DuplicateTransaction(name)) && client == old(client).(calls := client.calls)
      ensures name !in old(client.transactions) ==>
        r == Ok(Transaction(name, event, context, [], [], [], [], None))
        && client == old(client).(transactions := old(client.transactions)[name := r.value],
                                  current := Some(name), calls := client.calls)
    {
      var t := Transaction(name, event, context, [], [], [], [], None);
      r := if name in client.transactions then Err(DuplicateTransaction(name)) else Ok(t);
      client := if name in client.transactions then client.(calls := client.calls + [StartCall(name)])
        else client.(transactions := client.transactions[name := t], current := Some(name),
                     calls := client.calls + [StartCall(name)]);
    }

    method GetTransaction(name: string) returns (r: Result<Transaction, AgentError>)
      ensures name in client.transactions ==> r == Ok(client.transactions[name])
      ensures name !in client.transactions ==> r == Err(UnknownTransaction(name))
    {
      if name in client.transactions {
        r := Ok(client.transactions[name]);
      } else {
        r := Err(UnknownTransaction(name));
      }
    }

    /** stopTransaction: records the meta the transaction is stopped with; an unknown name throws. */
    method StopTransaction(name: string, meta: Assoc) returns (r: Result<(), AgentError>)
      modifies this`client
      ensures old(Valid()) ==> Valid() && Entries(names) == old(Entries(names))
      ensures client.calls == old(client.calls) + [StopCall(name, meta)]
      ensures name !in old(client.transactions) ==>
        r == Err(UnknownTransaction(name)) && client == old(client).(calls := client.calls)
      ensures name in old(client.transactions) ==>
        r.Ok? && client == old(client).(transactions := old(client.transactions)[name :=
                                           old(client.transactions)[name].(stopMeta := Some(meta))],
                                         calls := client.calls)
    {
      r := if name in client.transactions then Ok(()) else Err(UnknownTransaction(name));
      client := if name in client.transactions
        then client.(transactions := client.transactions[name := client.transactions[name].(stopMeta := Some(meta))],
                     calls := client.calls + [StopCall(name, meta)])
        else client.(calls := client.calls + [StopCall(name, meta)]);
    }

    /** Replaces one transaction's record (the setters of a Transaction object). */
    method UpdateTransaction(name: string, t: Transaction)
      requires name in client.transactions
      modifies this`client
      ensures old(Valid()) ==> Valid() && Entries(names) == old(Entries(names))
      ensures client == old(client).(transactions := old(client.transactions)[name := t])
    {
      client := client.(transactions := client.transactions[name := t]);
    }

    method HasCurrentTransaction() returns (r: bool)
      ensures r <==> client.current.Some?
    {
      r := client.current.Some?;
    }

    method SetCurrentTransaction(name: string)
      modifies this`client
      ensures old(Valid()) ==> Valid() && Entries(names) == old(Entries(names))
      ensures client == old(client).(current := Some(name))
    {
      client := client.(current := Some(name));
    }

    method ClearCurrentTransaction()
      modifies this`client
      ensures old(Valid()) ==> Valid() && Entries(names) == old(Entries(names))
      ensures client == old(client).(current := None)
    {
      client := client.(current := None);
    }

    /** currentTransaction(): the current transaction, or NoCurrentTransactionException. */
    method CurrentTransaction() returns (r: Result<string, AgentError>)
      ensures client.current.Some? ==> r == Ok(client.current.value)
      ensures client.current.None? ==> r == Err(NoCurrentTransaction)
    {
      if client.current.Some? {
        r := Ok(client.current.value);
      } else {
        r := Err(NoCurrentTransaction);
      }
    }

    /** send(): on delivery the queue is flushed and the current transaction cleared; a failure throws. */
    method Send(outcome: SendOutcome) returns (r: Result<(), AgentError>)
      modifies this`client
      ensures old(Valid()) ==> Valid() && Entries(names) == old(Entries(names))
      ensures client.calls == old(client.calls) + [SendCall] && client.transactions == old(client.transactions)
      ensures outcome.Delivered? ==> r.Ok? && client.events == [] && client.current == None
      ensures outcome.Rejected? ==>
        r == Err(ClientException(outcome.responseBody))
        && client.events == old(client.events) && client.current == old(client.current)
      ensures outcome.Broken? ==>
        r == Err(Throwable(outcome.message))
        && client.events == old(client.events) && client.current == old(client.current)
    {
      r := match outcome
        case Delivered => Ok(())
        case Rejected(body) => Err(ClientException(body))
        case Broken(message) => Err(Throwable(message));
      client := if outcome.Delivered? then client.(events := [], current := None, calls := client.calls + [SendCall])
        else client.(calls := client.calls + [SendCall]);
    }

    /** captureThrowable: the error is handed to the client library, which is not part of this model. */
    method CaptureThrowable(message: string, context: Assoc, parent: Option<string>)
      modifies this`client
      ensures old(Valid()) ==> Valid() && Entries(names) == old(Entries(names))
      ensures client == old(client).(calls := old(client.calls) + [CaptureCall(message, context, parent)])
    {
      client := client.(calls := client.calls + [CaptureCall(message, context, parent)]);
    }

    // -------------------------------------------------------------------------
    // collectEvents

    /** Puts one event per measure, in order, until a setter throws. */
    method PutEvents(p: Parent, spans: seq<Span>) returns (failure: Option<AgentError>)
      modifies this`client
      ensures client == old(client).(events := old(client.events) + Gather(Outcomes(p, spans)).events)
      ensures failure == Gather(Outcomes(p, spans)).failure
    {
      ghost var outs := Outcomes(p, spans);
      var k := 0;
      failure := None;
      while k < |spans|
        invariant 0 <= k <= |spans|
        invariant client == old(client).(events := old(client.events) + Gather(outs[..k]).events)
        invariant Gather(outs[..k]).failure.None?
      {
        assert outs[..k + 1][..k] == outs[..k];
        var ev := BuildEvent(p, spans[k]);
        if ev.Err? {
          failure := Some(ev.error);
          GatherSticks(outs, k + 1);
          return;
        }
        client := client.(events := client.events + [ev.value]);
        k := k + 1;
      }
      assert outs[..k] == outs;
    }

    /** One collector's share of collectEvents: collect, cap, and put one event per measure. */
    method EmitCollector(c: TimelineCollector, p: Parent, maxTraceItems: Option<int>, clock: (string, nat) -> int,
                         ghost e: Entry)
      returns (failure: Option<AgentError>)
      requires c.Valid() && e == Entry(c.name, c.baseline, c.State())
      modifies this`client, c
      ensures c.Valid() && c.State() == Advance(e, clock) && c.log == old(c.log)
      ensures client == old(client).(events := old(client.events) + EmissionOf(p, e, clock, maxTraceItems).events)
      ensures failure == EmissionOf(p, e, clock, maxTraceItems).failure
    {
      var spans := c.Collect(ClockFor(clock, c.name));
      failure := PutEvents(p, Take(spans, maxTraceItems));
    }

    /** The i-th collector's turn in collectEvents; the other collectors are left alone. */
    method CollectStep(i: nat, p: Parent, maxTraceItems: Option<int>, clock: (string, nat) -> int, ghost e: Entry)
      returns (failure: Option<AgentError>)
      requires Consistent(Reg()) && CollectorsValid() && i < |names|
      requires e == Entries(names)[i]
      modifies this`client, collectors[names[i]]
      ensures CollectorsValid()
      ensures Entries(names) == old(Entries(names))[i := e.(engine := Advance(e, clock))]
      ensures client == old(client).(events := old(client.events) + EmissionOf(p, e, clock, maxTraceItems).events)
      ensures failure == EmissionOf(p, e, clock, maxTraceItems).failure
    {
      ghost var before := Entries(names);
      EntriesAt(names);
      var c := collectors[names[i]];
      assert c.Valid();
      failure := EmitCollector(c, p, maxTraceItems, clock, e);
      ghost var after := before[i := e.(engine := Advance(e, clock))];
      EntriesAt(names);
      forall j | 0 <= j < |names| ensures Entries(names)[j] == after[j] {
        if j != i {
          FiledApart(Reg(), i, j);
        }
      }
    }

    /** The loop of collectEvents over the registered collectors, in registration order. */
    method CollectAll(p: Parent, maxTraceItems: Option<int>, clock: (string, nat) -> int, ghost es: seq<Entry>)
      returns (failure: Option<AgentError>)
      requires Consistent(Reg()) && CollectorsValid() && es == Entries(names)
      modifies this`client, repr
      ensures CollectorsValid()
      ensures var run := RunAll(EmissionsOf(p, es, clock, maxTraceItems));
        client == old(client).(events := old(client.events) + run.events) && failure == run.failure
        && Entries(names) == Progressed(es, clock, run.collected)
    {
      ghost var ems := EmissionsOf(p, es, clock, maxTraceItems);
      var i := 0;
      while i < |names|
        invariant 0 <= i <= |names|
        invariant CollectorsValid()
        invariant RunAll(ems[..i]).failure.None?
        invariant client == old(client).(events := old(client.events) + RunAll(ems[..i]).events)
        invariant Entries(names) == Progressed(es, clock, i)
      {
        ghost var done := RunAll(ems[..i]);
        failure := CollectStep(i, p, maxTraceItems, clock, es[i]);
        ProgressedStep(es, clock, i);
        RunAllStep(ems, i);
        assert client.events == old(client.events) + RunAll(ems[..i + 1]).events by {
          AppendAssociates(old(client.events), done.events, ems[i].events);
        }
        if failure.Some? {
          RunAllSticks(ems, i + 1);
          return;
        }
        i := i + 1;
      }
      assert ems[..i] == ems;
      failure := None;
    }

    /**
     * collectEvents: for every collector in registration order, collect() it
     * (its i-th forced stop reads clock(name, i)), keep at most maxTraceItems
     * of its measures and put one span event per measure, parented to the
     * transaction. An unknown transaction throws before any collector is
     * touched; a measure without an action or a context throws from its
     * setter, after the events before it were put.
     */
    method CollectEvents(txName: string, maxTraceItems: Option<int>, clock: (string, nat) -> int)
      returns (r: Result<(), AgentError>)
      requires Valid()
      modifies this`client, repr
      ensures Valid()
      ensures txName !in client.transactions ==>
        r == Err(UnknownTransaction(txName)) && Entries(names) == old(Entries(names))
        && client == old(client).(calls := old(client.calls) + [CollectCall(txName)])
      ensures txName in client.transactions ==>
        var run := RunAll(EmissionsOf(client.transactions[txName].event, old(Entries(names)), clock, maxTraceItems));
        client == old(client).(events := old(client.events) + run.events, calls := old(client.calls) + [CollectCall(txName)])
        && (run.failure.None? ==> r == Ok(()))
        && (run.failure.Some? ==> r == Err(run.failure.value))
        && Entries(names) == Progressed(old(Entries(names)), clock, run.collected)
    {
      ghost var es := Entries(names);
      client := client.(calls := client.calls + [CollectCall(txName)]);
      assert Entries(names) == es;
      if txName !in client.transactions {
        r := Err(UnknownTransaction(txName));
        return;
      }
      var failure := CollectAll(client.transactions[txName].event, maxTraceItems, clock, es);
      r := if failure.Some? then Err(failure.value) else Ok(());
    }
  }
}
