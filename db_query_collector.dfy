/** DBQueryCollector: one span per executed SQL query, subject to a slow-query rule. */
module DbQueries {
  import opened Php
  import Time
  import opened Timeline

  const NAME: string := "query-collector"
  const FALLBACK_NAME: string := "Eloquent Query"

  /** What the query splitter made of a statement: it threw, or it gave a type and tables. */
  datatype Split = Threw | Parsed(queryType: Option<string>, tables: Option<seq<string>>)

  /** getQueryName: "<type> <table>, <table>…", or the fallback when the splitter failed. */
  function QueryName(split: Split): (r: string)
    ensures split.Threw? ==> r == FALLBACK_NAME
    ensures split.Parsed? && (split.queryType.None? || split.tables.None?) ==> r == FALLBACK_NAME
    ensures split.Parsed? && split.queryType.Some? && split.tables.Some? ==>
      StartsWith(r, split.queryType.value + " ") && r[|split.queryType.value| + 1..] == Join(", ", split.tables.value)
  {
    match split
    case Threw => FALLBACK_NAME
    case Parsed(queryType, tables) =>
      if queryType.Some? && tables.Some? then queryType.value + " " + Join(", ", tables.value)
      else FALLBACK_NAME
  }

  /**
   * The slow-query rule: with querylog.enabled set to 'auto', a query faster than
   * the threshold (milliseconds) is dropped; any other setting keeps every query.
   */
  predicate Admitted(enabled: Value, timeUs: int, thresholdMs: real) {
    !(enabled == Str("auto") && (timeUs as real) / 1000.0 < thresholdMs)
  }

  /** The span context: the statement and the database type. */
  function QueryContext(sql: string): Assoc {
    [("db", Map([("statement", Str(sql)), ("type", Str("sql"))]))]
  }

  /**
   * onQueryExecutedEvent at clock reading `now` for a query that took timeUs µs:
   * the query is taken to have ended now and started timeUs earlier.
   */
  function QuerySpec(e: Engine, baseline: int, now: int, sql: string, timeUs: int, split: Split,
                     enabled: Value, thresholdMs: real): Engine
  {
    if !Admitted(enabled, timeUs, thresholdMs) then e
    else
      var start := now - baseline - timeUs;
      AddSpec(e, QueryName(split), start, start + timeUs, "db.mysql.query", Some("query"), Some(QueryContext(sql)))
  }

  /**
   * An admitted query appends exactly one span: its duration is the query time in
   * milliseconds, it ends at the clock reading, and it carries the statement.
   */
  lemma QueryRecorded(e: Engine, baseline: int, now: int, sql: string, timeUs: int, split: Split,
                      enabled: Value, thresholdMs: real)
    requires Admitted(enabled, timeUs, thresholdMs)
    ensures var r := QuerySpec(e, baseline, now, sql, timeUs, split, enabled, thresholdMs);
      var s := r.measures[|e.measures|];
      |r.measures| == |e.measures| + 1 && r.measures[..|e.measures|] == e.measures
      && r.started == e.started && r.order == e.order
      && s.duration * 1000.0 == timeUs as real
      && s.start + s.duration == Time.ToMilliseconds(now - baseline)
      && s.labelText == QueryName(split) && s.spanType == "db.mysql.query" && s.action == Some("query")
      && s.context == Some([("db", Map([("statement", Str(sql)), ("type", Str("sql"))]))])
  {
    var r := QuerySpec(e, baseline, now, sql, timeUs, split, enabled, thresholdMs);
    assert r.measures[..|e.measures|] == e.measures;
  }

  /** The threshold test is strict, and it only applies in 'auto' mode. */
  lemma AdmissionRule(enabled: Value, timeUs: int, thresholdMs: real)
    ensures enabled != Str("auto") ==> Admitted(enabled, timeUs, thresholdMs)
    ensures (timeUs as real) / 1000.0 == thresholdMs ==> Admitted(enabled, timeUs, thresholdMs)
    ensures enabled == Str("auto") && (timeUs as real) / 1000.0 < thresholdMs ==> !Admitted(enabled, timeUs, thresholdMs)
  {
  }

  /** A fast query under 'auto' leaves the collector untouched: 500 ms against a 1000 ms threshold. */
  lemma FastQueryDropped(e: Engine, baseline: int, now: int, sql: string, split: Split)
    ensures QuerySpec(e, baseline, now, sql, 500000, split, Str("auto"), 1000.0) == e
  {
  }

  class DbQueryCollector {
    const timeline: TimelineCollector

    constructor (requestStartTime: int)
      ensures fresh(timeline) && timeline.name == NAME && timeline.baseline == requestStartTime
      ensures timeline.Valid() && timeline.State() == Empty && timeline.log == []
    {
      timeline := new TimelineCollector.FromAgent(requestStartTime, NAME);
    }

    method GetName() returns (r: string)
      ensures r == "query-collector"
    {
      r := NAME;
    }

    /** enabled and thresholdMs are the querylog.enabled and querylog.threshold settings. */
    method OnQueryExecuted(now: int, sql: string, timeUs: int, split: Split, enabled: Value, thresholdMs: real)
      requires timeline.Valid()
      modifies timeline
      ensures timeline.Valid() && timeline.log == old(timeline.log)
      ensures timeline.State() == QuerySpec(old(timeline.State()), timeline.baseline, now, sql, timeUs, split, enabled, thresholdMs)
    {
      if enabled == Str("auto") {
        if (timeUs as real) / 1000.0 < thresholdMs {
          return;
        }
      }
      var start := now - timeline.baseline - timeUs;
      var end := start + timeUs;
      timeline.AddMeasure(QueryName(split), start, end, "db.mysql.query", Some("query"), Some(QueryContext(sql)));
    }
  }
}
