/** The points of the stream: a timestamp and the value observed at it. */
module Observations {

  /** Timestamps (pandas `Timestamp`s in the source) are opaque integers: no arithmetic is done on them. */
  type Timestamp = int

  datatype Observation = Observation(timestamp: Timestamp, value: real)

  /** The values of the series, in arrival order (the pandas Series built from it). */
  function Values(series: seq<Observation>): (values: seq<real>)
    ensures |values| == |series|
    ensures forall i :: 0 <= i < |series| ==> values[i] == series[i].value
  {
    seq(|series|, i requires 0 <= i < |series| => series[i].value)
  }
}
