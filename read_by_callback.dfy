/**
 * The stream-process callback of `read_by_callback.py`: a buffer sized to a
 * whole number of chunks, filled chunk by chunk from the device's stream
 * buffer as samples arrive.
 */
module ReadByCallback {
  import opened StreamBuffers

  /** Samples copied per step of the fill loop. */
  const CHUNK_SIZE: int := 10000

  /** The requested sample count rounded up to a whole number of chunks. */
  function BufferLength(samples: int): (n: int)
    ensures n % CHUNK_SIZE == 0
    ensures samples <= n < samples + CHUNK_SIZE
  {
    var q, r := (samples + CHUNK_SIZE - 1) / CHUNK_SIZE, (samples + CHUNK_SIZE - 1) % CHUNK_SIZE;
    assert samples + CHUNK_SIZE - 1 == q * CHUNK_SIZE + r && 0 <= r < CHUNK_SIZE;
    assert (q * CHUNK_SIZE) % CHUNK_SIZE == 0;
    q * CHUNK_SIZE
  }

  /** The rows `[from, to)` as the stream buffer delivers them: current, then voltage. */
  function Received(s: StreamBuffer, from: int, to: int): (rows: seq<(real, real)>)
    requires from <= to
    ensures |rows| == to - from
    ensures forall k :: 0 <= k < to - from ==> rows[k] == (s.current(from + k), s.voltage(from + k))
  {
    seq(to - from, k => (s.current(from + k), s.voltage(from + k)))
  }

  class StreamProcess {
    const chunkSize: int
    /** One row per sample: column 0 holds the current, column 1 the voltage. */
    var buffer: array2<real>
    /** The number of rows filled so far. */
    var idx: int

    ghost predicate Valid()
      reads this
    {
      chunkSize == CHUNK_SIZE && buffer.Length1 == 2 &&
      0 <= idx <= buffer.Length0 && idx % chunkSize == 0 && buffer.Length0 % chunkSize == 0
    }

    /** The rows filled so far: the `data` property. */
    function Data(): (rows: seq<(real, real)>)
      requires Valid()
      reads this, buffer
      ensures |rows| == idx
    {
      var b := buffer;
      seq(idx, i requires 0 <= i < b.Length0 && b.Length1 == 2 reads b => (b[i, 0], b[i, 1]))
    }

    /**
     * A buffer for `samples` samples, rounded up to whole chunks, all zero and
     * with nothing filled yet. NumPy refuses a negative length.
     */
    constructor (samples: int)
      requires BufferLength(samples) >= 0
      ensures Valid() && fresh(buffer)
      ensures buffer.Length0 == BufferLength(samples) && idx == 0 && Data() == []
      ensures forall i, j :: 0 <= i < buffer.Length0 && 0 <= j < 2 ==> buffer[i, j] == 0.0
    {
      chunkSize := CHUNK_SIZE;
      buffer := new real[BufferLength(samples), 2]((i, j) => 0.0);
      idx := 0;
    }

    /**
     * Copies whole chunks from the stream buffer while the next chunk is both
     * available (its end is at most `endId`) and fits in the buffer. The
     * filled rows grow by exactly the received samples, as many chunks as
     * fit, and no other row changes.
     */
    method StreamNotify(s: StreamBuffer)
      requires Valid()
      modifies this`idx, buffer
      ensures Valid()
      ensures old(idx) <= idx && (idx - old(idx)) % chunkSize == 0
      ensures idx == old(idx) || idx <= s.endId
      ensures idx + chunkSize > s.endId || idx + chunkSize > buffer.Length0
      ensures Data() == old(Data()) + Received(s, old(idx), idx)
      ensures forall i, j :: idx <= i < buffer.Length0 && 0 <= j < 2 ==> buffer[i, j] == old(buffer[i, j])
    {
      var idxNext := idx + chunkSize;
      while idxNext <= s.endId && idxNext <= buffer.Length0
        invariant Valid() && old(idx) <= idx && (idx - old(idx)) % chunkSize == 0
        invariant idxNext == idx + chunkSize
        invariant idx == old(idx) || idx <= s.endId
        invariant forall i :: old(idx) <= i < idx ==> buffer[i, 0] == s.current(i) && buffer[i, 1] == s.voltage(i)
        invariant forall i, j :: 0 <= i < old(idx) && 0 <= j < 2 ==> buffer[i, j] == old(buffer[i, j])
        invariant forall i, j :: idx <= i < buffer.Length0 && 0 <= j < 2 ==> buffer[i, j] == old(buffer[i, j])
        decreases buffer.Length0 - idx
      {
        CopyChunk(s, idxNext);
        idx := idxNext;
        idxNext := idxNext + chunkSize;
      }
      assert Data() == old(Data()) + Received(s, old(idx), idx) by {
        forall i | 0 <= i < idx
          ensures Data()[i] == (old(Data()) + Received(s, old(idx), idx))[i]
        {
          if i >= old(idx) {
            assert Received(s, old(idx), idx)[i - old(idx)] == (s.current(i), s.voltage(i));
          }
        }
      }
    }

    /** Rows `[idx, to)` take the stream's current and voltage; no other row changes. */
    method CopyChunk(s: StreamBuffer, to: int)
      requires Valid() && idx <= to <= buffer.Length0
      modifies buffer
      ensures forall i :: idx <= i < to ==> buffer[i, 0] == s.current(i) && buffer[i, 1] == s.voltage(i)
      ensures forall i, j :: 0 <= i < buffer.Length0 && 0 <= j < 2 && !(idx <= i < to) ==>
        buffer[i, j] == old(buffer[i, j])
    {
      for k := idx to to
        invariant forall i :: idx <= i < k ==> buffer[i, 0] == s.current(i) && buffer[i, 1] == s.voltage(i)
        invariant forall i, j :: 0 <= i < buffer.Length0 && 0 <= j < 2 && !(idx <= i < k) ==>
          buffer[i, j] == old(buffer[i, j])
      {
        buffer[k, 0] := s.current(k);
        buffer[k, 1] := s.voltage(k);
      }
    }
  }
}
