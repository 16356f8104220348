/** The StartMeasuring and StopMeasuring events: plain records carried by the dispatcher. */
module MeasureEvents {
  import opened Php

  /** startTime is an instant in microseconds, when given. */
  datatype StartMeasuring = StartMeasuring(
    name: string,
    measureType: string,
    action: Option<string>,
    labelText: Option<string>,
    startTime: Option<int>)

  datatype StopMeasuring = StopMeasuring(name: string, params: Assoc)
}
