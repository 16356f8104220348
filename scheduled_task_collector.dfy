/**
 * ScheduledTaskCollector: one transaction per scheduled task. A starting task
 * opens it; a skipped task stops it and collects the spans into it without
 * sending; a finished task stops, collects and sends it.
 */
module ScheduledTasks {
  import opened Php
  import opened LazySpans
  import opened SpanEmission
  import opened Agents
  import Commands

  const NAME: string := "scheduled-task-collector"

  /** The scheduled event: a closure (named by its display summary) or a command line. */
  datatype Task = CallbackTask(summary: string) | CommandTask(command: string)

  /** Readings addMetadata takes from the process: Carbon::now and the peak memory strings. */
  datatype TaskRunInfo = TaskRunInfo(ranAt: string, peak: string, peakReal: string)

  /** getTransactionName: the closure's summary or the command line; '' when the ignore patterns match it. */
  function TaskName(task: Task, ignore: string -> bool): (r: string)
    ensures var shown := if task.CallbackTask? then task.summary else task.command;
      (r == "" || (r == shown && !ignore(shown))) && (!ignore(shown) ==> r == shown)
  {
    var shown := match task case CallbackTask(s) => s case CommandTask(c) => c;
    if ignore(shown) then "" else shown
  }

  /** A task whose name is "" or "0" is never recorded, whatever the ignore patterns say. */
  lemma FalsyTasksUnrecorded(task: Task, ignore: string -> bool)
    requires FalsyString(if task.CallbackTask? then task.summary else task.command)
    ensures FalsyString(TaskName(task, ignore))
  {
  }

  /** (int) $result: a task that never ran has no exit code and reports 0. */
  function ExitResult(exitCode: Option<int>): (r: int)
    ensures exitCode.Some? ==> r == exitCode.value
    ensures exitCode.None? ==> r == 0
  {
    match exitCode
    case Some(c) => c
    case None => 0
  }

  /** addMetadata's setters: type 'scheduled-task' as meta, run time and peak memory as custom context. */
  function WithTaskMetadata(t: Transaction, info: TaskRunInfo): (r: Transaction)
    ensures r.name == t.name && r.event == t.event && r.context == t.context && r.stopMeta == t.stopMeta
    ensures r.userContext == t.userContext
  {
    t.(meta := [("type", Str("scheduled-task"))],
       customContext := [("ran_at", Str(info.ranAt)),
                         ("memory", Map([("peak", Str(info.peak)), ("peak_real", Str(info.peakReal))]))])
  }

  /** A task's transaction is of type 'scheduled-task', with its run time and peak memory as custom context. */
  lemma TaskMetadata(t: Transaction, info: TaskRunInfo)
    ensures var r := WithTaskMetadata(t, info);
      Lookup(r.meta, "type") == Some(Str("scheduled-task")) && Keys(r.customContext) == ["ran_at", "memory"]
      && Lookup(r.customContext, "ran_at") == Some(Str(info.ranAt))
  {
  }

  /** The transaction a starting task opens: no context, started at `event`, with the task's metadata. */
  function TaskTransaction(name: string, event: Parent, info: TaskRunInfo): Transaction {
    WithTaskMetadata(Transaction(name, event, [], [], [], [], [], None), info)
  }

  class ScheduledTaskCollector {
    const agent: Agent
    /** shouldIgnoreTransaction: whether the configured ignore patterns match a name. */
    const ignore: string -> bool

    constructor (agent: Agent, ignore: string -> bool)
      ensures this.agent == agent && this.ignore == ignore
    {
      this.agent := agent;
      this.ignore := ignore;
    }

    method GetName() returns (r: string)
      ensures r == "scheduled-task-collector"
    {
      r := NAME;
    }

    /**
     * The ScheduledTaskStarting listener: a transaction named after the task is
     * started at the clock reading `now` and given the task's metadata, unless
     * the name is falsy or a transaction of that name already exists.
     */
    method OnTaskStarting(task: Task, now: int, id: string, traceId: string, info: TaskRunInfo)
      modifies agent`client
      ensures old(agent.Valid()) ==> agent.Valid() && agent.Entries(agent.names) == old(agent.Entries(agent.names))
      ensures var name := TaskName(task, ignore);
        if FalsyString(name) || name in old(agent.client.transactions) then
          agent.client == old(agent.client)
        else
          agent.client == old(agent.client).(
            transactions := old(agent.client.transactions)[name := TaskTransaction(name, Parent(id, traceId, now), info)],
            current := Some(name),
            calls := old(agent.client.calls) + [StartCall(name)])
    {
      var name := TaskName(task, ignore);
      if FalsyString(name) {
        return;
      }
      var existing := agent.GetTransaction(name);
      if existing.Ok? {
        return;
      }
      var started := agent.StartTransaction(name, [], Parent(id, traceId, now));
      AddMetadata(name, started.value, info);
    }

    method AddMetadata(name: string, t: Transaction, info: TaskRunInfo)
      requires name in agent.client.transactions
      modifies agent`client
      ensures old(agent.Valid()) ==> agent.Valid() && agent.Entries(agent.names) == old(agent.Entries(agent.names))
      ensures agent.client == old(agent.client).(transactions := old(agent.client.transactions)[name := WithTaskMetadata(t, info)])
    {
      agent.UpdateTransaction(name, WithTaskMetadata(t, info));
    }

    /**
     * The ScheduledTaskSkipped listener: when the task's transaction exists, it
     * is stopped with the task's exit code (0 when it has none) and every
     * collector's spans are collected into it; nothing is sent.
     */
    method OnTaskSkipped(task: Task, exitCode: Option<int>, maxTraceItems: Option<int>, clock: (string, nat) -> int)
      returns (r: Result<(), AgentError>)
      requires agent.Valid()
      modifies agent`client, agent.repr
      ensures agent.Valid()
      ensures var name := TaskName(task, ignore);
        FalsyString(name) || name !in old(agent.client.transactions) ==>
          r == Ok(()) && agent.client == old(agent.client)
          && agent.Entries(agent.names) == old(agent.Entries(agent.names))
      ensures var name := TaskName(task, ignore);
        !FalsyString(name) && name in old(agent.client.transactions) ==>
          var run := RunAll(EmissionsOf(old(agent.client.transactions)[name].event, old(agent.Entries(agent.names)),
                                        clock, maxTraceItems));
          var meta := Commands.StopMeta(ExitResult(exitCode));
          agent.client == old(agent.client).(
            transactions := old(agent.client.transactions)[name := old(agent.client.transactions)[name].(stopMeta := Some(meta))],
            calls := old(agent.client.calls) + [StopCall(name, meta)] + [CollectCall(name)],
            events := old(agent.client.events) + run.events)
          && agent.Entries(agent.names) == Progressed(old(agent.Entries(agent.names)), clock, run.collected)
          && (run.failure.None? ==> r == Ok(()))
          && (run.failure.Some? ==> r == Err(run.failure.value))
    {
      ghost var es := agent.Entries(agent.names);
      r := Ok(());
      var name := TaskName(task, ignore);
      if FalsyString(name) {
        return;
      }
      var existing := agent.GetTransaction(name);
      if existing.Err? {
        return;
      }
      r := StopTransaction(name, exitCode, maxTraceItems, clock, es);
    }

    /**
     * The ScheduledTaskFinished listener: when the task's transaction exists, it
     * is stopped with the task's exit code (0 when it has none), every
     * collector's spans are collected into it, and it is sent; an exception from
     * collectEvents escapes before the send, a failed send is only logged.
     */
    method OnTaskFinished(task: Task, exitCode: Option<int>, maxTraceItems: Option<int>,
                          clock: (string, nat) -> int, outcome: SendOutcome)
      returns (r: Result<(), AgentError>, logged: seq<Commands.ErrorLog>)
      requires agent.Valid()
      modifies agent`client, agent.repr
      ensures agent.Valid()
      ensures var name := TaskName(task, ignore);
        FalsyString(name) || name !in old(agent.client.transactions) ==>
          r == Ok(()) && logged == [] && agent.client == old(agent.client)
          && agent.Entries(agent.names) == old(agent.Entries(agent.names))
      ensures var name := TaskName(task, ignore);
        !FalsyString(name) && name in old(agent.client.transactions) ==>
          var run := RunAll(EmissionsOf(old(agent.client.transactions)[name].event, old(agent.Entries(agent.names)),
                                        clock, maxTraceItems));
          var meta := Commands.StopMeta(ExitResult(exitCode));
          var stopped := old(agent.client.transactions)[name := old(agent.client.transactions)[name].(stopMeta := Some(meta))];
          var calls := old(agent.client.calls) + [StopCall(name, meta)] + [CollectCall(name)];
          agent.Entries(agent.names) == Progressed(old(agent.Entries(agent.names)), clock, run.collected)
          && (run.failure.Some? ==>
                r == Err(run.failure.value) && logged == []
                && agent.client == old(agent.client).(transactions := stopped, calls := calls,
                                                      events := old(agent.client.events) + run.events))
          && (run.failure.None? ==>
                r == Ok(()) && logged == Commands.SendLog(outcome)
                && agent.client == Client(stopped,
                                          if outcome.Delivered? then None else old(agent.client.current),
                                          if outcome.Delivered? then [] else old(agent.client.events) + run.events,
                                          calls + [SendCall]))
    {
      ghost var es := agent.Entries(agent.names);
      r, logged := Ok(()), [];
      var name := TaskName(task, ignore);
      if FalsyString(name) {
        return;
      }
      var existing := agent.GetTransaction(name);
      if existing.Err? {
        return;
      }
      r, logged := StopAndSend(name, exitCode, maxTraceItems, clock, outcome, es);
    }

    /** The finished listener's work once the transaction is known to exist. */
    method StopAndSend(name: string, exitCode: Option<int>, maxTraceItems: Option<int>, clock: (string, nat) -> int,
                       outcome: SendOutcome, ghost es: seq<Entry>)
      returns (r: Result<(), AgentError>, logged: seq<Commands.ErrorLog>)
      requires agent.Valid() && name in agent.client.transactions && es == agent.Entries(agent.names)
      modifies agent`client, agent.repr
      ensures agent.Valid()
      ensures var run := RunAll(EmissionsOf(old(agent.client.transactions)[name].event, es, clock, maxTraceItems));
        var meta := Commands.StopMeta(ExitResult(exitCode));
        var stopped := old(agent.client.transactions)[name := old(agent.client.transactions)[name].(stopMeta := Some(meta))];
        var calls := old(agent.client.calls) + [StopCall(name, meta)] + [CollectCall(name)];
        agent.Entries(agent.names) == Progressed(es, clock, run.collected)
        && (run.failure.Some? ==>
              r == Err(run.failure.value) && logged == []
              && agent.client == old(agent.client).(transactions := stopped, calls := calls,
                                                    events := old(agent.client.events) + run.events))
        && (run.failure.None? ==>
              r == Ok(()) && logged == Commands.SendLog(outcome)
              && agent.client == Client(stopped,
                                        if outcome.Delivered? then None else old(agent.client.current),
                                        if outcome.Delivered? then [] else old(agent.client.events) + run.events,
                                        calls + [SendCall]))
    {
      logged := [];
      r := StopTransaction(name, exitCode, maxTraceItems, clock, es);
      if r.Err? {
        return;
      }
      logged := Send(outcome);
    }

    /** stopTransaction: stop the transaction with (int) of the exit code as result, then collectEvents. */
    method StopTransaction(name: string, exitCode: Option<int>, maxTraceItems: Option<int>, clock: (string, nat) -> int,
                           ghost es: seq<Entry>)
      returns (r: Result<(), AgentError>)
      requires agent.Valid() && name in agent.client.transactions && es == agent.Entries(agent.names)
      modifies agent`client, agent.repr
      ensures agent.Valid()
      ensures var run := RunAll(EmissionsOf(old(agent.client.transactions)[name].event, es, clock, maxTraceItems));
        var meta := Commands.StopMeta(ExitResult(exitCode));
        agent.client == old(agent.client).(
          transactions := old(agent.client.transactions)[name := old(agent.client.transactions)[name].(stopMeta := Some(meta))],
          calls := old(agent.client.calls) + [StopCall(name, meta)] + [CollectCall(name)],
          events := old(agent.client.events) + run.events)
        && agent.Entries(agent.names) == Progressed(es, clock, run.collected)
        && (run.failure.None? ==> r == Ok(()))
        && (run.failure.Some? ==> r == Err(run.failure.value))
    {
      var meta := Commands.StopMeta(ExitResult(exitCode));
      var stopped := agent.StopTransaction(name, meta);
      r := agent.CollectEvents(name, maxTraceItems, clock);
    }

    /** send: a ClientException is logged with the server's response, any other throwable by its message. */
    method Send(outcome: SendOutcome) returns (logged: seq<Commands.ErrorLog>)
      modifies agent`client
      ensures old(agent.Valid()) ==> agent.Valid() && agent.Entries(agent.names) == old(agent.Entries(agent.names))
      ensures agent.client == Client(old(agent.client.transactions),
                                     if outcome.Delivered? then None else old(agent.client.current),
                                     if outcome.Delivered? then [] else old(agent.client.events),
                                     old(agent.client.calls) + [SendCall])
      ensures logged == Commands.SendLog(outcome)
    {
      var sent := agent.Send(outcome);
      match sent
      case Ok(_) =>
        logged := [];
      case Err(ClientException(body)) =>
        logged := [Commands.ClientErrorLogged(sent.error, body)];
      case Err(Throwable(message)) =>
        logged := [Commands.MessageLogged(message)];
      case Err(_) =>
        assert false;
        logged := [];
    }
  }
}
