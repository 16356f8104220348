/**
 * LazySpan: the span event the agent builds from a collected measure. Its
 * setters fill in the fields one by one before the event is queued.
 */
module LazySpans {
  import opened Php

  /** The event a span hangs from: ids and its timestamp (µs since the epoch). */
  datatype Parent = Parent(id: string, traceId: string, timestamp: int)

  /** Every field of a LazySpan. */
  datatype SpanState = SpanState(
    name: string,
    parent: Parent,
    startTime: Option<real>,
    duration: real,
    action: Option<string>,
    spanType: string,
    stacktrace: seq<Value>,
    timestamp: real,
    contexts: Assoc)

  /** The body of jsonSerialize()'s 'span' entry. */
  datatype Serialized = Serialized(
    id: string,
    transactionId: string,
    traceId: string,
    parentId: string,
    spanType: string,
    action: Option<string>,
    context: Assoc,
    start: Option<real>,
    duration: real,
    name: string,
    stacktrace: seq<Value>,
    sync: bool,
    timestamp: real)

  /** The contexts a new span starts with: empty custom and labels entries. */
  const DefaultContexts: Assoc := [("custom", List([])), ("labels", List([]))]

  /** The state right after construction. */
  function Initial(name: string, parent: Parent): SpanState {
    SpanState(Trim(name, Whitespace), parent, None, 0.0, None, "request", [], parent.timestamp as real, DefaultContexts)
  }

  class LazySpan {
    const parent: Parent
    var name: string
    var startTime: Option<real>
    var duration: real
    var action: Option<string>
    var spanType: string
    var stacktrace: seq<Value>
    var timestamp: real
    var contexts: Assoc

    function State(): SpanState
      reads this
    {
      SpanState(name, parent, startTime, duration, action, spanType, stacktrace, timestamp, contexts)
    }

    constructor (name: string, parent: Parent)
      ensures State() == Initial(name, parent)
      ensures State().timestamp == parent.timestamp as real
    {
      this.parent := parent;
      this.name := Trim(name, Whitespace);
      startTime := None;
      duration := 0.0;
      action := None;
      spanType := "request";
      stacktrace := [];
      timestamp := parent.timestamp as real;
      contexts := DefaultContexts;
    }

    method GetName() returns (r: string)
      ensures r == name
    {
      r := name;
    }

    /** start is in milliseconds; the timestamp (µs) moves forward by start * 1000 on every call. */
    method SetStartTime(start: real)
      modifies this
      ensures State() == old(State()).(startTime := Some(start), timestamp := old(timestamp) + start * 1000.0)
    {
      startTime := Some(start);
      timestamp := timestamp + start * 1000.0;
    }

    method SetDuration(d: real)
      modifies this
      ensures State() == old(State()).(duration := d)
    {
      duration := d;
    }

    method SetAction(a: string)
      modifies this
      ensures State() == old(State()).(action := Some(Trim(a, Whitespace)))
    {
      action := Some(Trim(a, Whitespace));
    }

    method SetType(t: string)
      modifies this
      ensures State() == old(State()).(spanType := Trim(t, Whitespace))
    {
      spanType := Trim(t, Whitespace);
    }

    /**
     * array_merge: the given keys are overridden, every other context keeps
     * its value (Php.MergeLookup).
     */
    method SetContext(c: Assoc)
      modifies this
      ensures State() == old(State()).(contexts := Merge(old(contexts), c))
    {
      contexts := Merge(contexts, c);
    }

    method SetStacktrace(st: seq<Value>)
      modifies this
      ensures State() == old(State()).(stacktrace := st)
    {
      stacktrace := st;
    }

    /**
     * The serialised span (id is the event id the client library generated):
     * transaction_id is the parent id, and sync is always true.
     */
    function JsonSerialize(id: string): (r: Serialized)
      reads this
      ensures r.transactionId == r.parentId == parent.id && r.sync
      ensures r.id == id && r.name == name && r.timestamp == timestamp && r.context == contexts
    {
      Serialized(id, parent.id, parent.traceId, parent.id, spanType, action, contexts, startTime,
                 duration, name, stacktrace, true, timestamp)
    }
  }
}
