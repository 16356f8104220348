/** EventCounter: a counter with a configurable limit, shared by the collectors of one agent. */
module Counters {
  import opened Php

  /** The limit a counter gets when none is given (the constructor's default argument). */
  const EVENT_LIMIT: int := 1000

  class EventCounter {
    /** The limit as passed to the constructor; PHP accepts null here. */
    const limit: Option<int>
    var count: int

    constructor (limit: Option<int>)
      ensures this.limit == limit && count == 0
    {
      this.limit := limit;
      count := 0;
    }

    /** `new EventCounter()`: the default limit. */
    constructor Default()
      ensures limit == Some(EVENT_LIMIT) && count == 0
    {
      limit := Some(EVENT_LIMIT);
      count := 0;
    }

    /** limit(): its return type is int, so a null limit raises a TypeError. */
    method Limit() returns (r: Result<int, string>)
      ensures limit.Some? ==> r == Ok(limit.value)
      ensures limit.None? ==> r.Err?
    {
      if limit.Some? {
        r := Ok(limit.value);
      } else {
        r := Err("TypeError: Return value must be of type int, null returned");
      }
    }

    method Count() returns (r: int)
      ensures r == count
    {
      r := count;
    }

    /** Adds one with no upper clamp: the count may go past the limit. */
    method Increment()
      modifies this
      ensures count == old(count) + 1
    {
      count := count + 1;
    }

    /**
     * count >= limit. Against a null limit PHP compares both sides as booleans,
     * and any count is then "at least" false.
     */
    predicate ReachedLimit()
      reads this
    {
      match limit
      case Some(l) => count >= l
      case None => true
    }

    method Reset()
      modifies this
      ensures count == 0
      ensures limit.Some? && limit.value > 0 ==> !ReachedLimit()
    {
      count := 0;
    }
  }

  /** Checking the limit: a count at or past a limit reaches it, one below does not. */
  method CheckLimit(c: EventCounter) returns (reached: bool)
    ensures reached <==> (c.limit.None? || c.count >= c.limit.value)
  {
    reached := c.ReachedLimit();
  }
}
