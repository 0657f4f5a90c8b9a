/**
 * `jls_recode.py`: copies a recording block by block, one second of samples
 * per block, and draws a 60-character progress bar after each block.
 */
module JlsRecode {
  import opened Wrappers

  const BAR_LEN: int := 60

  // ---------------------------------------------------------------------------
  // Block partition
  // ---------------------------------------------------------------------------

  /** The number of blocks: the sample count divided by the block size, rounded up. */
  function BlockCount(sampleCount: int, blockSize: int): (n: int)
    requires blockSize > 0
    ensures sampleCount > 0 ==> n > 0 && (n - 1) * blockSize < sampleCount <= n * blockSize
    ensures sampleCount <= 0 ==> n <= 0
  {
    var q, r := (sampleCount + blockSize - 1) / blockSize, (sampleCount + blockSize - 1) % blockSize;
    assert sampleCount + blockSize - 1 == q * blockSize + r && 0 <= r < blockSize;
    assert (q - 1) * blockSize == q * blockSize - blockSize;
    q
  }

  /** The sample range `[offset, offset_next)` that block `k` copies. */
  function Block(k: int, sampleCount: int, blockSize: int): (r: (int, int))
    ensures r.0 == k * blockSize && r.1 <= sampleCount && r.1 <= r.0 + blockSize
    ensures r.1 == r.0 + blockSize || r.1 == sampleCount
    ensures blockSize > 0 && r.0 < sampleCount ==> r.0 < r.1
  {
    var offset := k * blockSize;
    var next := offset + blockSize;
    (offset, if next > sampleCount then sampleCount else next)
  }

  /**
   * The blocks split `[0, sampleCount)` into consecutive ranges: the first
   * starts at 0, each starts where the one before ends, the last ends at the
   * sample count, and each holds at least one and at most `blockSize` samples.
   */
  lemma BlocksPartition(sampleCount: int, blockSize: int)
    requires blockSize > 0 && sampleCount > 0
    ensures var n := BlockCount(sampleCount, blockSize);
      && Block(0, sampleCount, blockSize).0 == 0
      && Block(n - 1, sampleCount, blockSize).1 == sampleCount
      && (forall k :: 0 <= k < n - 1 ==>
            Block(k, sampleCount, blockSize).1 == Block(k + 1, sampleCount, blockSize).0)
      && (forall k :: 0 <= k < n ==>
            0 < Block(k, sampleCount, blockSize).1 - Block(k, sampleCount, blockSize).0 <= blockSize)
  {
    var n := BlockCount(sampleCount, blockSize);
    forall k | 0 <= k < n
      ensures 0 < Block(k, sampleCount, blockSize).1 - Block(k, sampleCount, blockSize).0 <= blockSize
    {
      assert k * blockSize <= (n - 1) * blockSize by {
        MultiplyMonotonic(k, n - 1, blockSize);
      }
    }
    forall k | 0 <= k < n - 1
      ensures Block(k, sampleCount, blockSize).1 == Block(k + 1, sampleCount, blockSize).0
    {
      assert (k + 1) * blockSize <= (n - 1) * blockSize by {
        MultiplyMonotonic(k + 1, n - 1, blockSize);
      }
    }
  }

  lemma MultiplyMonotonic(a: int, b: int, c: int)
    requires a <= b && c >= 0
    ensures a * c <= b * c
  {
    assert b * c - a * c == (b - a) * c;
  }

  // ---------------------------------------------------------------------------
  // Progress bar
  // ---------------------------------------------------------------------------

  /** `n` copies of `c`; Python's `c * n` gives the empty string for `n <= 0`. */
  function Repeat(c: char, n: int): (s: string)
    ensures |s| == if n <= 0 then 0 else n
    ensures forall i :: 0 <= i < |s| ==> s[i] == c
  {
    if n <= 0 then [] else seq(n, _ => c)
  }

  /**
   * `round(num / den)` to the nearest integer, ties to the even neighbour, as
   * Python's `round` does (on exact quotients).
   */
  function RoundHalfEven(num: int, den: int): (r: int)
    requires den != 0
    ensures den > 0 ==> -den <= 2 * (num - r * den) <= den
    ensures den > 0 && (2 * (num - r * den) == den || 2 * (num - r * den) == -den) ==> r % 2 == 0
  {
    if den < 0 then RoundPositive(-num, -den) else RoundPositive(num, den)
  }

  function RoundPositive(num: int, den: int): (r: int)
    requires den > 0
    ensures -den <= 2 * (num - r * den) <= den
    ensures (2 * (num - r * den) == den || 2 * (num - r * den) == -den) ==> r % 2 == 0
  {
    var q, m := num / den, num % den;
    assert num == q * den + m && 0 <= m < den;
    assert num - (q + 1) * den == m - den;
    if 2 * m < den then q
    else if 2 * m > den then q + 1
    else if q % 2 == 0 then q
    else q + 1
  }

  /** The bar for `filled` of 60 cells: `=` for the filled ones, `-` for the rest. */
  function Bar(filled: int): (b: string)
    ensures 0 <= filled <= BAR_LEN ==> |b| == BAR_LEN
    ensures forall i :: 0 <= i < |b| ==> (b[i] == '=' <==> i < filled) && (b[i] == '=' || b[i] == '-')
  {
    Repeat('=', filled) + Repeat('-', BAR_LEN - filled)
  }

  /**
   * `progress(count, total)` as written: the share `count / total` of the bar
   * is filled. A total of 0 raises ZeroDivisionError.
   */
  function Progress(count: int, total: int): (r: Result<string>)
    ensures r.Err? <==> total == 0
  {
    if total == 0 then Err(ZeroDivisionError) else Ok(Bar(RoundHalfEven(BAR_LEN * count, total)))
  }

  /**
   * For `0 <= count <= total` the bar has exactly 60 cells, filled ones first;
   * it is empty at 0 and full at `total`.
   */
  lemma ProgressBar(count: int, total: int)
    requires 0 <= count <= total && total > 0
    ensures Progress(count, total).Ok?
    ensures var bar := Progress(count, total).value;
      |bar| == BAR_LEN
      && (exists f :: 0 <= f <= BAR_LEN && bar == Repeat('=', f) + Repeat('-', BAR_LEN - f))
      && (count == 0 ==> bar == Repeat('-', BAR_LEN))
      && (count == total ==> bar == Repeat('=', BAR_LEN))
  {
    var f := RoundHalfEven(BAR_LEN * count, total);
    assert 0 <= f <= BAR_LEN by {
      MultiplyMonotonic(count, total, BAR_LEN);
      if f < 0 {
        MultiplyMonotonic(f, -1, total);
      }
      if f > BAR_LEN {
        MultiplyMonotonic(BAR_LEN + 1, f, total);
      }
    }
    if count == 0 {
      assert f == 0 by {
        if f != 0 {
          if f >= 1 {
            MultiplyMonotonic(1, f, total);
          } else {
            MultiplyMonotonic(f, -1, total);
          }
        }
      }
    }
    if count == total {
      assert f == BAR_LEN by {
        if f < BAR_LEN {
          MultiplyMonotonic(f, BAR_LEN - 1, total);
        }
      }
    }
  }

  // ---------------------------------------------------------------------------
  // The copy loop
  // ---------------------------------------------------------------------------

  /**
   * The copy loop of `run` as written: after copying block `k` it draws
   * `progress(k, block_count - 1)`. For a recording that fits in one block that
   * is `progress(0, 0)`, which raises once the only block is copied.
   */
  method RecodeAsWritten(sMin: int, sMax: int, blockSize: int)
    returns (copied: seq<(int, int)>, bars: seq<string>, raised: Option<Error>)
    requires blockSize > 0
    ensures var n := BlockCount(sMax - sMin, blockSize);
      (n == 1 <==> raised.Some?)
      && (n == 1 ==> raised == Some(ZeroDivisionError) && copied == [(0, sMax - sMin)] && bars == [])
      && (n != 1 ==> |copied| == |bars| == (if n < 0 then 0 else n))
      && (forall k :: 0 <= k < |copied| ==> copied[k] == Block(k, sMax - sMin, blockSize))
  {
    var sampleCount := sMax - sMin;
    var blockCount := (sampleCount + blockSize - 1) / blockSize;
    assert blockCount == BlockCount(sampleCount, blockSize);
    copied, bars, raised := [], [], None;
    var block := 0;
    while block < blockCount
      invariant 0 <= block && (blockCount >= 0 ==> block <= blockCount)
      invariant |copied| == |bars| == block
      invariant forall k :: 0 <= k < block ==> copied[k] == Block(k, sampleCount, blockSize)
      invariant block > 0 ==> blockCount > 1
    {
      var offset := block * blockSize;
      var offsetNext := offset + blockSize;
      if offsetNext > sampleCount {
        offsetNext := sampleCount;
      }
      copied := copied + [(offset, offsetNext)];
      match Progress(block, blockCount - 1)
      case Err(e) =>
        raised := Some(e);
        return;
      case Ok(bar) =>
        bars := bars + [bar];
      block := block + 1;
    }
  }

  /** A recording that fits in one block makes the progress bar divide by zero. */
  lemma OneBlockRaises(sampleCount: int, blockSize: int)
    requires blockSize > 0 && 0 < sampleCount <= blockSize
    ensures BlockCount(sampleCount, blockSize) == 1
    ensures Progress(0, BlockCount(sampleCount, blockSize) - 1) == Err(ZeroDivisionError)
  {
    var n := BlockCount(sampleCount, blockSize);
    if n >= 2 {
      MultiplyMonotonic(1, n - 1, blockSize);
    }
  }

  /**
   * The copy loop, drawing `progress(k, block_count - 1)` after block `k`
   * when there are two blocks or more, and the full bar when there is only
   * one, where the loop as written divides by zero. Returns the ranges read
   * from the input, in order, and the bars drawn. `sMin` is the first sample
   * id of the input recording; the ranges are counted from 0 regardless.
   */
  method Recode(sMin: int, sMax: int, blockSize: int) returns (copied: seq<(int, int)>, bars: seq<string>)
    requires blockSize > 0
    ensures var n := BlockCount(sMax - sMin, blockSize);
      |copied| == |bars| == (if n < 0 then 0 else n)
      && (forall k :: 0 <= k < |copied| ==> copied[k] == Block(k, sMax - sMin, blockSize))
      && (forall k :: 0 <= k < |bars| ==>
            bars[k] == (if n == 1 then Repeat('=', BAR_LEN) else Progress(k, n - 1).value) && |bars[k]| == BAR_LEN)
      && (|bars| > 0 ==> bars[|bars| - 1] == Repeat('=', BAR_LEN))
  {
    var sampleCount := sMax - sMin;
    var blockCount := (sampleCount + blockSize - 1) / blockSize;
    assert blockCount == BlockCount(sampleCount, blockSize);
    copied, bars := [], [];
    var block := 0;
    while block < blockCount
      invariant 0 <= block <= (if blockCount < 0 then 0 else blockCount)
      invariant |copied| == |bars| == block
      invariant forall k :: 0 <= k < block ==> copied[k] == Block(k, sampleCount, blockSize)
      invariant forall k :: 0 <= k < block ==>
        bars[k] == (if blockCount == 1 then Repeat('=', BAR_LEN) else Progress(k, blockCount - 1).value)
    {
      var offset := block * blockSize;
      var offsetNext := offset + blockSize;
      if offsetNext > sampleCount {
        offsetNext := sampleCount;
      }
      copied := copied + [(offset, offsetNext)];
      var bar := if blockCount == 1 then Repeat('=', BAR_LEN) else Progress(block, blockCount - 1).value;
      bars := bars + [bar];
      block := block + 1;
    }
    assert block == if blockCount < 0 then 0 else blockCount;
    forall k | 0 <= k < |bars| && blockCount > 1
      ensures |bars[k]| == BAR_LEN
    {
      ProgressBar(k, blockCount - 1);
    }
    if blockCount > 1 {
      ProgressBar(blockCount - 1, blockCount - 1);
    }
  }
}
