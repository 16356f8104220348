/**
 * ApmCollectorService: the application's handle on the agent. Measures are
 * started and stopped by dispatching StartMeasuring/StopMeasuring events;
 * collectors and captured throwables reach the agent only while it is enabled.
 */
module CollectorService {
  import opened Php
  import opened Timeline
  import opened MeasureEvents
  import opened Agents
  import opened ConfigService

  /** An event handed to the dispatcher. */
  datatype Dispatched = StartEvent(start: StartMeasuring) | StopEvent(stop: StopMeasuring)

  class ApmCollectorService {
    const agent: Agent
    const isAgentDisabled: bool
    /** The events dispatched so far, in order. */
    var dispatched: seq<Dispatched>

    /** `active` and `cliActive` are the active and cli.active settings; `console` is runningInConsole(). */
    constructor (agent: Agent, active: Value, cliActive: Value, console: bool)
      ensures this.agent == agent && dispatched == []
      ensures isAgentDisabled == AgentDisabled(active, cliActive, console)
    {
      this.agent := agent;
      isAgentDisabled := active == Bool(false) || (console && cliActive == Bool(false));
      dispatched := [];
    }

    /** startMeasure: dispatches StartMeasuring with the arguments, whether the agent is enabled or not. */
    method StartMeasure(name: string, measureType: string := "request", action: Option<string> := None,
                        labelText: Option<string> := None, startTime: Option<int> := None)
      modifies this`dispatched
      ensures dispatched == old(dispatched) + [StartEvent(StartMeasuring(name, measureType, action, labelText, startTime))]
    {
      dispatched := dispatched + [StartEvent(StartMeasuring(name, measureType, action, labelText, startTime))];
    }

    /** stopMeasure: dispatches StopMeasuring with the parameters, whether the agent is enabled or not. */
    method StopMeasure(name: string, params: Assoc := [])
      modifies this`dispatched
      ensures dispatched == old(dispatched) + [StopEvent(StopMeasuring(name, params))]
    {
      dispatched := dispatched + [StopEvent(StopMeasuring(name, params))];
    }

    /** addCollector: registers the collector the container resolves, unless the agent is disabled. */
    method AddCollector(collector: TimelineCollector)
      requires agent.Valid() && collector.Valid()
      modifies agent`names, agent`collectors, agent`repr
      ensures agent.Valid()
      ensures agent.Reg() == if isAgentDisabled then old(agent.Reg()) else Add(old(agent.Reg()), collector)
    {
      if isAgentDisabled {
        return;
      }
      agent.AddCollector(collector);
    }

    /** captureThrowable: hands the throwable to the agent, unless the agent is disabled. */
    method CaptureThrowable(message: string, context: Assoc := [], parent: Option<string> := None)
      modifies agent`client
      ensures old(agent.Valid()) ==> agent.Valid() && agent.Entries(agent.names) == old(agent.Entries(agent.names))
      ensures agent.client == if isAgentDisabled then old(agent.client)
        else old(agent.client).(calls := old(agent.client.calls) + [CaptureCall(message, context, parent)])
    {
      if isAgentDisabled {
        return;
      }
      agent.CaptureThrowable(message, context, parent);
    }
  }
}
