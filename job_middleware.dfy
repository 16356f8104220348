/**
 * The queue-job middleware RecordTransaction: wraps a job's processing in a
 * "job_processing" measure of the job collector, unless the agent or its
 * console side is switched off.
 */
module JobMiddleware {
  import opened Php
  import opened Timeline
  import opened Agents
  import opened SpanEmission
  import Time
  import JobEvents

  const MEASURE: string := "job_processing"

  /** The middleware only passes the job on when active or cli.active is exactly false. */
  predicate Disabled(active: Value, cliActive: Value) {
    active == Bool(false) || cliActive == Bool(false)
  }

  /** The job collector after startMeasure('job_processing', 'job', 'processing', '<class> processing') at t1. */
  function Opened(e: Engine, jobClass: string, t1: int, baseline: int): Engine {
    StartSpec(e, MEASURE, "job", Some("processing"), Some(jobClass + " processing"), t1, baseline)
  }

  /** ... and after stopMeasure('job_processing') at t2, once the job returned. */
  function Wrapped(e: Engine, jobClass: string, t1: int, t2: int, baseline: int): Engine {
    StopSpec(Opened(e, jobClass, t1, baseline), MEASURE, [], t2, baseline)
  }

  /**
   * A job processed while no job_processing measure was in flight adds exactly
   * one span: labelled after the job's class, of type job and action
   * processing, from t1 to t2, and leaves nothing in flight under that name.
   */
  lemma WrappedSpan(e: Engine, jobClass: string, t1: int, t2: int, baseline: int)
    requires MEASURE !in e.started
    ensures var r := Wrapped(e, jobClass, t1, t2, baseline);
      var s := r.measures[|e.measures|];
      |r.measures| == |e.measures| + 1 && r.measures[..|e.measures|] == e.measures
      && s.labelText == jobClass + " processing" && s.spanType == "job" && s.action == Some("processing")
      && s.context == Some([])
      && s.start * 1000.0 == (t1 - baseline) as real && s.start + s.duration == Time.ToMilliseconds(t2 - baseline)
      && MEASURE !in r.started
  {
    var r := Wrapped(e, jobClass, t1, t2, baseline);
    assert r.measures[..|e.measures|] == e.measures;
  }

  /** A job that throws leaves its measure in flight, to be closed by the next collect. */
  lemma ThrownJobStaysOpen(e: Engine, jobClass: string, t1: int, baseline: int)
    ensures MEASURE in Opened(e, jobClass, t1, baseline).started
    ensures Opened(e, jobClass, t1, baseline).measures == e.measures
  {
  }

  /**
   * handle: `job` is what $next($job) gives, its return value or the message
   * of what it throws. Switched off, the job just runs and its result is
   * handed back. Otherwise the job collector is looked up (an unregistered one
   * fails getCollector's return type before the job runs), the measure is
   * started at t1, the job runs, and the measure is stopped at t2 — unless the
   * job threw, which leaves the measure open. The middleware returns null.
   */
  method Handle(agent: Agent, active: Value, cliActive: Value, jobClass: string, job: Result<Value, string>,
                t1: int, t2: int)
    returns (r: Result<Value, AgentError>)
    requires agent.Valid()
    modifies if JobEvents.NAME in agent.collectors then {agent.collectors[JobEvents.NAME]} else {}
    ensures agent.Valid()
    ensures Disabled(active, cliActive) ==>
      r == (if job.Ok? then Ok(job.value) else Err(Throwable(job.error)))
    ensures !Disabled(active, cliActive) && JobEvents.NAME !in agent.collectors ==>
      r == Err(TypeError("Agent::getCollector", "DataCollector"))
    ensures !Disabled(active, cliActive) && JobEvents.NAME in agent.collectors ==>
      var c := agent.collectors[JobEvents.NAME];
      var begun := Opened(old(c.State()), jobClass, t1, c.baseline);
      if job.Ok? then
        r == Ok(Null) && c.State() == Wrapped(old(c.State()), jobClass, t1, t2, c.baseline)
        && c.log == old(c.log) + StartWarnings(old(c.State()), MEASURE) + StopWarnings(begun, MEASURE)
      else
        r == Err(Throwable(job.error)) && c.State() == begun
        && c.log == old(c.log) + StartWarnings(old(c.State()), MEASURE)
  {
    if Disabled(active, cliActive) {
      return if job.Ok? then Ok(job.value) else Err(Throwable(job.error));
    }
    var found := agent.GetCollector(JobEvents.NAME);
    if found.Err? {
      return Err(found.error);
    }
    var collector := found.value;
    collector.StartMeasure(t1, MEASURE, "job", Some("processing"), Some(jobClass + " processing"));
    if job.Err? {
      return Err(Throwable(job.error));
    }
    collector.StopMeasure(MEASURE, [], t2);
    r := Ok(Null);
  }
}
