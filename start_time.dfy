/** RequestStartTime: the baseline instant against which measure offsets are taken. */
module StartTime {

  class RequestStartTime {
    /** Epoch time in microseconds; the class has no mutator. */
    const startTime: int

    constructor (startTime: int)
      ensures Microseconds() == startTime
    {
      this.startTime := startTime;
    }

    /** microseconds(): a read of the stored instant, with no side effect. */
    function Microseconds(): int {
      startTime
    }
  }
}
