/**
 * Apm\Span: a hand-made span timed against a running timer; end() pushes its
 * name, type, start and duration (milliseconds) onto a span collection.
 */
module ApmSpans {
  import Time

  /** The array end() pushes: name, type, start and duration in milliseconds. */
  datatype SpanRecord = SpanRecord(name: string, spanType: string, start: real, duration: real)

  /** The collection end() pushes onto. */
  class SpanCollection {
    var items: seq<SpanRecord>

    constructor ()
      ensures items == []
    {
      items := [];
    }

    method Push(r: SpanRecord)
      modifies this
      ensures items == old(items) + [r]
    {
      items := items + [r];
    }
  }

  class Span {
    const collection: SpanCollection
    var name: string
    var spanType: string
    /** The timer's elapsed milliseconds when the span was made. */
    const start: real

    /** `elapsed` is the timer's reading, in milliseconds, at construction. */
    constructor (elapsed: real, collection: SpanCollection)
      ensures name == "Transaction Span" && spanType == "app.span"
      ensures start == elapsed && this.collection == collection
    {
      this.collection := collection;
      name := "Transaction Span";
      spanType := "app.span";
      start := elapsed;
    }

    method SetName(name: string)
      modifies this`name
      ensures this.name == name
    {
      this.name := name;
    }

    method SetType(spanType: string)
      modifies this`spanType
      ensures this.spanType == spanType
    {
      this.spanType := spanType;
    }

    /**
     * end(): `elapsed` is the timer's reading now. One record is pushed, with
     * the span's current name and type, its start, and the elapsed time since
     * the start rounded to three decimals: a whole number of microseconds, at
     * most half a microsecond away from the exact difference.
     */
    method End(elapsed: real)
      modifies collection
      ensures |collection.items| == |old(collection.items)| + 1
      ensures collection.items[..|old(collection.items)|] == old(collection.items)
      ensures var r := collection.items[|old(collection.items)|];
        r.name == name && r.spanType == spanType && r.start == start
        && r.duration == Time.Round3(elapsed - start)
        && -0.0005 <= r.duration - (elapsed - start) <= 0.0005
        && (r.duration * 1000.0).Floor as real == r.duration * 1000.0
    {
      var duration := Time.Round3(elapsed - start);
      Time.Round3Bounds(elapsed - start);
      collection.Push(SpanRecord(name, spanType, start, duration));
    }
  }
}
