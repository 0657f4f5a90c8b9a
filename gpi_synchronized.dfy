/**
 * `gpi_synchronized.py`: finds the edges of the general-purpose input in the
 * captured samples and cuts, around each edge that is far enough from both
 * ends of the capture, the window of samples that is plotted against the
 * offsets -2 .. 10.
 */
module GpiSynchronized {

  /** One captured sample: the current and the input bit carried in the voltage LSB. */
  datatype Sample = Sample(current: real, lsb: int)

  /** Samples plotted before the edge. */
  const X_LEAD: int := 2
  /** Samples plotted from the edge on (exclusive bound of the offsets). */
  const X_LAG: int := 11

  /** The input changes between samples `i` and `i + 1`. */
  predicate IsEdge(data: seq<Sample>, i: int) {
    0 <= i < |data| - 1 && data[i].lsb != data[i + 1].lsb
  }

  /**
   * The edges at or after `i`, in ascending order: `np.nonzero(np.diff(out0))`
   * restricted to the indices from `i` on.
   */
  function EdgesFrom(data: seq<Sample>, i: nat): (r: seq<int>)
    ensures forall k :: 0 <= k < |r| ==> i <= r[k] && IsEdge(data, r[k])
    ensures forall k, l :: 0 <= k < l < |r| ==> r[k] < r[l]
    ensures forall j :: i <= j && IsEdge(data, j) ==> j in r
    decreases |data| - i
  {
    if i >= |data| - 1 then []
    else if data[i].lsb != data[i + 1].lsb then [i] + EdgesFrom(data, i + 1)
    else EdgesFrom(data, i + 1)
  }

  /** `edges_idx`: every index where the input changes, ascending. */
  function EdgesIdx(data: seq<Sample>): (r: seq<int>)
    ensures forall j :: j in r <==> IsEdge(data, j)
    ensures forall k, l :: 0 <= k < l < |r| ==> r[k] < r[l]
  {
    EdgesFrom(data, 0)
  }

  /** The indices where the input changes, as a set. */
  function EdgeSet(data: seq<Sample>, i: nat): set<int> {
    set j | i <= j < |data| - 1 && IsEdge(data, j)
  }

  /** `edge_count` is the number of indices where the input changes. */
  lemma {:induction false} EdgeCount(data: seq<Sample>, i: nat)
    ensures |EdgesFrom(data, i)| == |EdgeSet(data, i)|
    decreases |data| - i
  {
    if i >= |data| - 1 {
      assert EdgeSet(data, i) == {};
    } else {
      EdgeCount(data, i + 1);
      if data[i].lsb != data[i + 1].lsb {
        assert EdgeSet(data, i) == {i} + EdgeSet(data, i + 1);
        assert i !in EdgeSet(data, i + 1);
      } else {
        assert EdgeSet(data, i) == EdgeSet(data, i + 1);
      }
    }
  }

  /** `x`: the offsets from the edge at which the window's samples are plotted. */
  function Offsets(): (x: seq<int>)
    ensures |x| == X_LEAD + X_LAG == 13
    ensures x[0] == -2 && x[|x| - 1] == 10
    ensures forall k :: 0 <= k < |x| ==> x[k] == k - X_LEAD
  {
    seq(X_LEAD + X_LAG, k => k - X_LEAD)
  }

  /** The loop plots an edge unless it lies too close to either end of the capture. */
  predicate Plotted(data: seq<Sample>, idx: int) {
    !(idx < X_LEAD || idx > |data| - X_LAG)
  }

  /** The edges that are plotted, in ascending order. */
  function PlottedEdges(data: seq<Sample>, edges: seq<int>): (r: seq<int>)
    ensures forall j :: j in r <==> j in edges && Plotted(data, j)
    ensures |r| <= |edges|
  {
    if edges == [] then []
    else (if Plotted(data, edges[0]) then [edges[0]] else []) + PlottedEdges(data, edges[1..])
  }

  /**
   * The window plotted for edge `idx`: 13 samples, the one at position `k`
   * being the sample at offset `Offsets()[k] == k - 2` from the edge, so
   * offset 0 is the last sample before the change and offset 1 the first after it.
   */
  function Window(data: seq<Sample>, idx: int): (w: seq<Sample>)
    requires Plotted(data, idx)
    ensures |w| == |Offsets()|
    ensures forall k :: 0 <= k < |w| ==> w[k] == data[idx + k - X_LEAD]
  {
    data[idx - X_LEAD..idx + X_LAG]
  }

  /** Every window the loop plots lies inside the capture and straddles an input change. */
  lemma PlottedWindows(data: seq<Sample>)
    ensures forall idx :: idx in PlottedEdges(data, EdgesIdx(data)) ==>
      Plotted(data, idx) && 0 <= idx - X_LEAD && idx + X_LAG <= |data| &&
      Window(data, idx)[X_LEAD].lsb != Window(data, idx)[X_LEAD + 1].lsb
  {
    var edges := EdgesIdx(data);
    forall idx | idx in PlottedEdges(data, edges)
      ensures Plotted(data, idx) && 0 <= idx - X_LEAD && idx + X_LAG <= |data|
      ensures Window(data, idx)[X_LEAD].lsb != Window(data, idx)[X_LEAD + 1].lsb
    {
      assert idx in edges;
      assert IsEdge(data, idx);
      WindowStraddles(data, idx);
    }
  }

  /** The window of an edge shows the change between offsets 0 and 1. */
  lemma WindowStraddles(data: seq<Sample>, idx: int)
    requires Plotted(data, idx) && IsEdge(data, idx)
    ensures Window(data, idx)[X_LEAD] == data[idx] && Window(data, idx)[X_LEAD + 1] == data[idx + 1]
    ensures Window(data, idx)[X_LEAD].lsb != Window(data, idx)[X_LEAD + 1].lsb
  {
    var w := Window(data, idx);
    assert w[X_LEAD] == data[idx + X_LEAD - X_LEAD];
    assert w[X_LEAD + 1] == data[idx + (X_LEAD + 1) - X_LEAD];
  }
}
