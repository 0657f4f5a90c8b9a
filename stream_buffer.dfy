/**
 * The device's stream buffer as a stream-process callback sees it: the range
 * of sample ids it holds, and the current and voltage of each sample id.
 */
module StreamBuffers {

  datatype StreamBuffer = StreamBuffer(startId: int, endId: int, current: int -> real, voltage: int -> real)

  /** The values of one signal for the sample ids `[from, to)`, as `samples_get` returns them. */
  function Samples(signal: int -> real, from: int, to: int): (vs: seq<real>)
    requires from <= to
    ensures |vs| == to - from
    ensures forall k :: 0 <= k < to - from ==> vs[k] == signal(from + k)
  {
    seq(to - from, k => signal(from + k))
  }
}
