/**
 * CommandCollector: opens one transaction per artisan command when it starts
 * and, when it finishes, stops it, collects the spans of every collector into
 * it and sends it to the APM server. A failing send is logged and swallowed.
 */
module Commands {
  import opened Php
  import opened LazySpans
  import opened SpanEmission
  import opened Agents

  const NAME: string := "command-collector"

  /** What the catch blocks of send() write through Log::error. */
  datatype ErrorLog =
    | ClientErrorLogged(exception: AgentError, apiResponse: string)  // the exception, with the server's answer as context
    | MessageLogged(message: string)                                 // a throwable's message

  /** The Log::error lines of one send(): none on delivery, one per caught exception. */
  function SendLog(outcome: SendOutcome): (r: seq<ErrorLog>)
    ensures |r| <= 1 && (r == [] <==> outcome.Delivered?)
    ensures outcome.Rejected? ==> r == [ClientErrorLogged(ClientException(outcome.responseBody), outcome.responseBody)]
  {
    match outcome
    case Delivered => []
    case Rejected(body) => [ClientErrorLogged(ClientException(body), body)]
    case Broken(message) => [MessageLogged(message)]
  }

  /** Readings addMetadata takes from the process: the posix user, Carbon::now and the peak memory strings. */
  datatype RunInfo = RunInfo(runner: Option<string>, ranAt: string, peak: string, peakReal: string)

  /**
   * getTransactionName: the command's name; '' for a command without a name
   * or one the ignore patterns match.
   */
  function TransactionName(command: Option<string>, ignore: string -> bool): (r: string)
    ensures r == "" || (command == Some(r) && !ignore(r))
    ensures command.Some? && !ignore(command.value) ==> r == command.value
  {
    match command
    case None => ""
    case Some(c) => if ignore(c) then "" else c
  }

  /** The listeners act on a command exactly when its name is truthy: named, not ignored, and neither "" nor "0". */
  lemma RecordedCommands(command: Option<string>, ignore: string -> bool)
    ensures !FalsyString(TransactionName(command, ignore))
      <==> command.Some? && !ignore(command.value) && !FalsyString(command.value)
  {
  }

  /** addMetadata's setters: the posix user as user context, type 'command' as meta, run time and peak memory as custom context. */
  function WithMetadata(t: Transaction, info: RunInfo): (r: Transaction)
    ensures r.name == t.name && r.event == t.event && r.context == t.context && r.stopMeta == t.stopMeta
  {
    t.(meta := [("type", Str("command"))],
       userContext := [("username", match info.runner case Some(u) => Str(u) case None => Null)],
       customContext := [("ran_at", Str(info.ranAt)),
                         ("memory", Map([("peak", Str(info.peak)), ("peak_real", Str(info.peakReal))]))])
  }

  /** A command's transaction is of type 'command', and its user context names the posix user (null when unknown). */
  lemma CommandMetadata(t: Transaction, info: RunInfo)
    ensures var r := WithMetadata(t, info);
      Lookup(r.meta, "type") == Some(Str("command"))
      && Lookup(r.userContext, "username") == Some(if info.runner.Some? then Str(info.runner.value) else Null)
      && Keys(r.customContext) == ["ran_at", "memory"]
  {
  }

  /** The transaction a starting command opens: no context, started at `event`, with the command's metadata. */
  function CommandTransaction(name: string, event: Parent, info: RunInfo): Transaction {
    WithMetadata(Transaction(name, event, [], [], [], [], [], None), info)
  }

  /** The meta stopTransaction hands the agent: the exit code as the result. */
  function StopMeta(exitCode: int): (m: Assoc)
    ensures Lookup(m, "result") == Some(Int(exitCode)) && Keys(m) == ["result"]
  {
    [("result", Int(exitCode))]
  }

  class CommandCollector {
    const agent: Agent
    /** shouldIgnoreTransaction: whether the configured ignore patterns match a name. */
    const ignore: string -> bool

    constructor (agent: Agent, ignore: string -> bool)
      ensures this.agent == agent && this.ignore == ignore
    {
      this.agent := agent;
      this.ignore := ignore;
    }

    method GetName() returns (r: string)
      ensures r == "command-collector"
    {
      r := NAME;
    }

    /**
     * The CommandStarting listener: a transaction named after the command is
     * started at the clock reading `now` and given the command's metadata,
     * unless the name is falsy or a transaction of that name already exists.
     */
    method OnCommandStarting(command: Option<string>, now: int, id: string, traceId: string, info: RunInfo)
      modifies agent`client
      ensures old(agent.Valid()) ==> agent.Valid() && agent.Entries(agent.names) == old(agent.Entries(agent.names))
      ensures var name := TransactionName(command, ignore);
        if FalsyString(name) || name in old(agent.client.transactions) then
          agent.client == old(agent.client)
        else
          agent.client == old(agent.client).(
            transactions := old(agent.client.transactions)[name := CommandTransaction(name, Parent(id, traceId, now), info)],
            current := Some(name),
            calls := old(agent.client.calls) + [StartCall(name)])
    {
      var name := TransactionName(command, ignore);
      if FalsyString(name) {
        return;
      }
      var existing := agent.GetTransaction(name);
      if existing.Ok? {
        return;
      }
      var started := agent.StartTransaction(name, [], Parent(id, traceId, now));
      AddMetadata(name, started.value, info);
    }

    method AddMetadata(name: string, t: Transaction, info: RunInfo)
      requires name in agent.client.transactions
      modifies agent`client
      ensures old(agent.Valid()) ==> agent.Valid() && agent.Entries(agent.names) == old(agent.Entries(agent.names))
      ensures agent.client == old(agent.client).(transactions := old(agent.client.transactions)[name := WithMetadata(t, info)])
    {
      agent.UpdateTransaction(name, WithMetadata(t, info));
    }

    /**
     * The CommandFinished listener: when the command's transaction exists, it
     * is stopped with the exit code as its result, every collector's spans are
     * collected into it, and it is sent; an exception from collectEvents
     * escapes before the send, a failed send is only logged, in `logged`.
     */
    method OnCommandFinished(command: Option<string>, exitCode: int, maxTraceItems: Option<int>,
                             clock: (string, nat) -> int, outcome: SendOutcome)
      returns (r: Result<(), AgentError>, logged: seq<ErrorLog>)
      requires agent.Valid()
      modifies agent`client, agent.repr
      ensures agent.Valid()
      ensures var name := TransactionName(command, ignore);
        FalsyString(name) || name !in old(agent.client.transactions) ==>
          r == Ok(()) && logged == [] && agent.client == old(agent.client)
          && agent.Entries(agent.names) == old(agent.Entries(agent.names))
      ensures var name := TransactionName(command, ignore);
        !FalsyString(name) && name in old(agent.client.transactions) ==>
          var run := RunAll(EmissionsOf(old(agent.client.transactions)[name].event, old(agent.Entries(agent.names)),
                                        clock, maxTraceItems));
          var stopped := old(agent.client.transactions)[name := old(agent.client.transactions)[name].(stopMeta := Some(StopMeta(exitCode)))];
          var calls := old(agent.client.calls) + [StopCall(name, StopMeta(exitCode))] + [CollectCall(name)];
          agent.Entries(agent.names) == Progressed(old(agent.Entries(agent.names)), clock, run.collected)
          && (run.failure.Some? ==>
                r == Err(run.failure.value) && logged == []
                && agent.client == old(agent.client).(transactions := stopped, calls := calls,
                                                      events := old(agent.client.events) + run.events))
          && (run.failure.None? ==>
                r == Ok(()) && logged == SendLog(outcome)
                && agent.client == Client(stopped,
                                          if outcome.Delivered? then None else old(agent.client.current),
                                          if outcome.Delivered? then [] else old(agent.client.events) + run.events,
                                          calls + [SendCall]))
    {
      ghost var es := agent.Entries(agent.names);
      r, logged := Ok(()), [];
      var name := TransactionName(command, ignore);
      if FalsyString(name) {
        return;
      }
      var existing := agent.GetTransaction(name);
      if existing.Err? {
        return;
      }
      r, logged := StopAndSend(name, exitCode, maxTraceItems, clock, outcome, es);
    }

    /** The listener's work once the transaction is known to exist. */
    method StopAndSend(name: string, exitCode: int, maxTraceItems: Option<int>, clock: (string, nat) -> int,
                       outcome: SendOutcome, ghost es: seq<Entry>)
      returns (r: Result<(), AgentError>, logged: seq<ErrorLog>)
      requires agent.Valid() && name in agent.client.transactions && es == agent.Entries(agent.names)
      modifies agent`client, agent.repr
      ensures agent.Valid()
      ensures var run := RunAll(EmissionsOf(old(agent.client.transactions)[name].event, es, clock, maxTraceItems));
        var stopped := old(agent.client.transactions)[name := old(agent.client.transactions)[name].(stopMeta := Some(StopMeta(exitCode)))];
        var calls := old(agent.client.calls) + [StopCall(name, StopMeta(exitCode))] + [CollectCall(name)];
        agent.Entries(agent.names) == Progressed(es, clock, run.collected)
        && (run.failure.Some? ==>
              r == Err(run.failure.value) && logged == []
              && agent.client == old(agent.client).(transactions := stopped, calls := calls,
                                                    events := old(agent.client.events) + run.events))
        && (run.failure.None? ==>
              r == Ok(()) && logged == SendLog(outcome)
              && agent.client == Client(stopped,
                                        if outcome.Delivered? then None else old(agent.client.current),
                                        if outcome.Delivered? then [] else old(agent.client.events) + run.events,
                                        calls + [SendCall]))
    {
      logged := [];
      r := StopTransaction(name, exitCode, maxTraceItems, clock, es);
      if r.Err? {
        return;
      }
      logged := Send(outcome);
    }

    /** stopTransaction: stop the transaction with the exit code as result, then collectEvents. */
    method StopTransaction(name: string, exitCode: int, maxTraceItems: Option<int>, clock: (string, nat) -> int,
                           ghost es: seq<Entry>)
      returns (r: Result<(), AgentError>)
      requires agent.Valid() && name in agent.client.transactions && es == agent.Entries(agent.names)
      modifies agent`client, agent.repr
      ensures agent.Valid()
      ensures var run := RunAll(EmissionsOf(old(agent.client.transactions)[name].event, es, clock, maxTraceItems));
        agent.client == old(agent.client).(
          transactions := old(agent.client.transactions)[name := old(agent.client.transactions)[name].(stopMeta := Some(StopMeta(exitCode)))],
          calls := old(agent.client.calls) + [StopCall(name, StopMeta(exitCode))] + [CollectCall(name)],
          events := old(agent.client.events) + run.events)
        && agent.Entries(agent.names) == Progressed(es, clock, run.collected)
        && (run.failure.None? ==> r == Ok(()))
        && (run.failure.Some? ==> r == Err(run.failure.value))
    {
      var stopped := agent.StopTransaction(name, StopMeta(exitCode));
      r := agent.CollectEvents(name, maxTraceItems, clock);
    }

    /** send: a ClientException is logged with the server's response, any other throwable by its message. */
    method Send(outcome: SendOutcome) returns (logged: seq<ErrorLog>)
      modifies agent`client
      ensures old(agent.Valid()) ==> agent.Valid() && agent.Entries(agent.names) == old(agent.Entries(agent.names))
      ensures agent.client == Client(old(agent.client.transactions),
                                     if outcome.Delivered? then None else old(agent.client.current),
                                     if outcome.Delivered? then [] else old(agent.client.events),
                                     old(agent.client.calls) + [SendCall])
      ensures logged == SendLog(outcome)
    {
      var sent := agent.Send(outcome);
      match sent
      case Ok(_) =>
        logged := [];
      case Err(ClientException(body)) =>
        logged := [ClientErrorLogged(sent.error, body)];
      case Err(Throwable(message)) =>
        logged := [MessageLogged(message)];
      case Err(_) =>
        assert false;
        logged := [];
    }
  }
}
