/**
 * The instrument response: a redistribution matrix (RMF) restricted to the
 * kept input rows and channels, each input column weighted by the effective
 * area of the ancillary response (ARF), and the fold of a signal through it.
 *
 * The loaded text tables are taken as inputs: `arf` (columns: index, low
 * energy edge, high energy edge, effective area, ...), `rmf` (one row per
 * input energy bin, one column per channel) and `edgeTable` (the channel
 * energy map as loaded, before its first column is dropped).
 */
module Instrument {
  import opened Shared

  /** The first kept channel (an RMF column). */
  const FirstChannel: nat := 20

  /** One past the last kept channel. */
  const ChannelStop: nat := 201

  /** One past the last row of the channel energy map that is kept. */
  const EdgeStop: nat := 202

  /** ARF columns: low energy edge, high energy edge, effective area. */
  const ArfLow: nat := 1
  const ArfHigh: nat := 2
  const ArfArea: nat := 3

  /** Python's `int` on a float: truncation toward zero. */
  function Trunc(x: real): (r: int)
    ensures 0.0 <= x ==> r as real <= x < r as real + 1.0
    ensures x < 0.0 ==> r as real - 1.0 < x <= r as real
  {
    if x >= 0.0 then x.Floor else -((-x).Floor)
  }

  /** `numpy.arange(start, stop)` on integers. */
  function Arange(start: int, stop: int): seq<int>
    decreases stop - start
  {
    if stop <= start then [] else [start] + Arange(start + 1, stop)
  }

  /** `arange(start, stop)` holds the integers start, start + 1, ..., stop - 1 in order. */
  lemma {:induction false} ArangeEntries(start: int, stop: int)
    ensures |Arange(start, stop)| == if stop <= start then 0 else stop - start
    ensures forall k :: 0 <= k < |Arange(start, stop)| ==> Arange(start, stop)[k] == start + k
    decreases stop - start
  {
    if start < stop {
      ArangeEntries(start + 1, stop);
    }
  }

  /**
   * `table[:, 1:][20:202, -2]`: rows 20 up to 202 (clamped to the table) of
   * the second-to-last column.
   */
  function EdgeColumn(table: array2<real>): seq<real>
    reads table
    requires 3 <= table.Length1
  {
    var stop := if table.Length0 < EdgeStop then table.Length0 else EdgeStop;
    var count := if stop < FirstChannel then 0 else stop - FirstChannel;
    seq(count, k requires 0 <= k < count reads table => table[FirstChannel + k, table.Length1 - 2])
  }

  /** A full energy map yields 182 channel edges, one per row 20..201. */
  lemma EdgeColumnOfFullTable(table: array2<real>)
    requires 3 <= table.Length1 && EdgeStop <= table.Length0
    ensures |EdgeColumn(table)| == EdgeStop - FirstChannel == 182
    ensures forall k :: 0 <= k < 182 ==> EdgeColumn(table)[k] == table[FirstChannel + k, table.Length1 - 2]
  {
  }

  /** The first `k` terms of row `i` of `m` times `s`. */
  function RowDot(m: array2<real>, i: nat, s: seq<real>, k: nat): real
    reads m
    requires i < m.Length0 && k <= m.Length1 && k <= |s|
  {
    if k == 0 then 0.0 else RowDot(m, i, s, k - 1) + m[i, k - 1] * s[k - 1]
  }

  /** `numpy.dot(m, s)` for a vector `s`. */
  function MatVec(m: array2<real>, s: seq<real>): seq<real>
    reads m
    requires m.Length1 == |s|
  {
    seq(m.Length0, i requires 0 <= i < m.Length0 reads m => RowDot(m, i, s, |s|))
  }

  /** The entrywise sum of two signals of equal length. */
  function AddSignals(a: seq<real>, b: seq<real>): seq<real>
    requires |a| == |b|
  {
    seq(|a|, k requires 0 <= k < |a| => a[k] + b[k])
  }

  /** A partial row product distributes over a sum of signals. */
  lemma {:induction false} RowDotAdditive(m: array2<real>, i: nat, a: seq<real>, b: seq<real>, k: nat)
    requires |a| == |b| && i < m.Length0 && k <= m.Length1 && k <= |a|
    ensures RowDot(m, i, AddSignals(a, b), k) == RowDot(m, i, a, k) + RowDot(m, i, b, k)
  {
    if k > 0 {
      RowDotAdditive(m, i, a, b, k - 1);
    }
  }

  /** Folding the sum of two signals gives the sum of their folds. */
  lemma FoldIsAdditive(m: array2<real>, a: seq<real>, b: seq<real>)
    requires m.Length1 == |a| == |b|
    ensures MatVec(m, AddSignals(a, b)) == AddSignals(MatVec(m, a), MatVec(m, b))
  {
    forall i | 0 <= i < m.Length0
      ensures MatVec(m, AddSignals(a, b))[i] == AddSignals(MatVec(m, a), MatVec(m, b))[i]
    {
      RowDotAdditive(m, i, a, b, |a|);
    }
  }

  /**
   * `m` is the response built from input rows `lo ..` of the tables: row `i`
   * is channel 20 + i, column `j` is input row lo + j, weighted by its area.
   */
  ghost predicate IsResponse(m: array2<real>, rmf: array2<real>, arf: array2<real>, lo: nat)
    reads m, rmf, arf
  {
    m.Length0 == ChannelStop - FirstChannel &&
    lo + m.Length1 <= rmf.Length0 && lo + m.Length1 <= arf.Length0 &&
    ChannelStop <= rmf.Length1 && ArfArea < arf.Length1 &&
    forall i, j :: 0 <= i < m.Length0 && 0 <= j < m.Length1 ==>
      m[i, j] == rmf[lo + j, FirstChannel + i] * arf[lo + j, ArfArea]
  }

  /**
   * The count in channel 20 + i from the first `k` input bins: each bin's
   * redistribution into that channel, times its effective area, times the signal.
   */
  function ResponseSum(rmf: array2<real>, arf: array2<real>, lo: nat, i: nat, s: seq<real>, k: nat): real
    reads rmf, arf
    requires lo + k <= rmf.Length0 && lo + k <= arf.Length0 && k <= |s|
    requires FirstChannel + i < rmf.Length1 && ArfArea < arf.Length1
  {
    if k == 0 then 0.0
    else ResponseSum(rmf, arf, lo, i, s, k - 1) + rmf[lo + k - 1, FirstChannel + i] * arf[lo + k - 1, ArfArea] * s[k - 1]
  }

  /** Folding through a constructed response is the area-weighted redistribution of the signal. */
  lemma {:induction false} RowDotIsResponseSum(m: array2<real>, rmf: array2<real>, arf: array2<real>,
                                                lo: nat, i: nat, s: seq<real>, k: nat)
    requires IsResponse(m, rmf, arf, lo) && i < m.Length0 && k <= m.Length1 && k <= |s|
    ensures RowDot(m, i, s, k) == ResponseSum(rmf, arf, lo, i, s, k)
  {
    if k > 0 {
      RowDotIsResponseSum(m, rmf, arf, lo, i, s, k - 1);
    }
  }

  /** Every channel of the folded signal is the area-weighted redistribution of the signal. */
  lemma FoldThroughResponse(m: array2<real>, rmf: array2<real>, arf: array2<real>, lo: nat, s: seq<real>)
    requires IsResponse(m, rmf, arf, lo) && m.Length1 == |s|
    ensures |MatVec(m, s)| == ChannelStop - FirstChannel
    ensures forall i :: 0 <= i < m.Length0 ==> MatVec(m, s)[i] == ResponseSum(rmf, arf, lo, i, s, |s|)
  {
    forall i | 0 <= i < m.Length0
      ensures MatVec(m, s)[i] == ResponseSum(rmf, arf, lo, i, s, |s|)
    {
      RowDotIsResponseSum(m, rmf, arf, lo, i, s, |s|);
    }
  }

  /** `RMF[lo:hi, 20:201].T` as a fresh contiguous array. */
  method TransposedSlice(rmf: array2<real>, lo: nat, hi: nat) returns (m: array2<real>)
    requires lo <= hi <= rmf.Length0 && ChannelStop <= rmf.Length1
    ensures fresh(m)
    ensures m.Length0 == ChannelStop - FirstChannel && m.Length1 == hi - lo
    ensures forall i, j :: 0 <= i < m.Length0 && 0 <= j < m.Length1 ==>
              m[i, j] == rmf[lo + j, FirstChannel + i]
  {
    m := new real[ChannelStop - FirstChannel, hi - lo]((i, j) reads rmf =>
           if 0 <= i < ChannelStop - FirstChannel && 0 <= j < hi - lo
           then rmf[lo + j, FirstChannel + i] else 0.0);
  }

  /** `for i in range(rows): m[i, :] *= ARF[lo:hi, 3]`. */
  method ScaleByArea(m: array2<real>, arf: array2<real>, lo: nat)
    requires m != arf
    requires lo + m.Length1 <= arf.Length0 && ArfArea < arf.Length1
    modifies m
    ensures forall i, j :: 0 <= i < m.Length0 && 0 <= j < m.Length1 ==>
              m[i, j] == old(m[i, j]) * arf[lo + j, ArfArea]
  {
    for i := 0 to m.Length0
      invariant forall i', j :: 0 <= i' < i && 0 <= j < m.Length1 ==>
                  m[i', j] == old(m[i', j]) * arf[lo + j, ArfArea]
      invariant forall i', j :: i <= i' < m.Length0 && 0 <= j < m.Length1 ==> m[i', j] == old(m[i', j])
    {
      forall j | 0 <= j < m.Length1 {
        m[i, j] := m[i, j] * arf[lo + j, ArfArea];
      }
    }
  }

  /** `edges = zeros(n + 1); edges[0] = ARF[lo, 1]; edges[1:] = ARF[lo:hi, 2]`. */
  method EnergyEdges(arf: array2<real>, lo: nat, hi: nat) returns (edges: array<real>)
    requires lo <= hi <= arf.Length0 && lo < arf.Length0 && ArfArea < arf.Length1
    ensures fresh(edges)
    ensures edges.Length == hi - lo + 1
    ensures edges[0] == arf[lo, ArfLow]
    ensures forall k :: 1 <= k < edges.Length ==> edges[k] == arf[lo + k - 1, ArfHigh]
  {
    edges := new real[hi - lo + 1];
    edges[0] := arf[lo, ArfLow];
    forall k | 1 <= k < edges.Length {
      edges[k] := arf[lo + k - 1, ArfHigh];
    }
  }

  /** The instrument: its kept channels, their edges, the response and the last fold. */
  class CustomInstrument {
    const channels: seq<int>
    const channelEdges: seq<real>
    const numParams: nat
    const bounds: seq<BoundPair>
    const matrix: array2<real>
    const energyEdges: array<real>
    var foldedSignal: Option<seq<real>>

    constructor (channels: seq<int>, channelEdges: seq<real>, numParams: nat, bounds: seq<BoundPair>,
                 matrix: array2<real>, energyEdges: array<real>)
      ensures this.channels == channels && this.channelEdges == channelEdges
      ensures this.numParams == numParams && this.bounds == bounds
      ensures this.matrix == matrix && this.energyEdges == energyEdges
      ensures foldedSignal == None
    {
      this.channels := channels;
      this.channelEdges := channelEdges;
      this.numParams := numParams;
      this.bounds := bounds;
      this.matrix := matrix;
      this.energyEdges := energyEdges;
      foldedSignal := None;
    }

    /** `construct_matrix(p)`: the stored response, whatever the parameters. */
    method ConstructMatrix(p: seq<real>) returns (m: array2<real>)
      ensures m == matrix
    {
      m := matrix;
    }

    /** `__call__(p, signal)`: fold the signal and cache the result; nothing else changes. */
    method Fold(p: seq<real>, signal: seq<real>) returns (folded: seq<real>)
      requires matrix.Length1 == |signal|
      modifies this
      ensures folded == MatVec(matrix, signal)
      ensures foldedSignal == Some(folded)
    {
      var m := ConstructMatrix(p);
      foldedSignal := Some(MatVec(m, signal));
      folded := foldedSignal.value;
    }

    /**
     * `from_response_files`: build the instrument from loaded tables. Both
     * input limits are truncated to integers; the channel energy map is optional
     * in the signature but must be given, since its slice is taken unconditionally.
     */
    static method FromResponseFiles(numParams: nat, bounds: seq<BoundPair>,
                                    arf: array2<real>, rmf: array2<real>,
                                    maxInput: real, minInput: real := 0.0,
                                    edgeTable: Option<array2<real>> := None)
      returns (inst: CustomInstrument)
      requires 0 <= Trunc(minInput) <= Trunc(maxInput)
      requires Trunc(minInput) < arf.Length0
      requires Trunc(maxInput) <= arf.Length0 && Trunc(maxInput) <= rmf.Length0
      requires edgeTable.Some?
      requires ArfArea < arf.Length1 && ChannelStop <= rmf.Length1 && 3 <= edgeTable.value.Length1
      ensures fresh(inst) && fresh(inst.matrix) && fresh(inst.energyEdges)
      ensures inst.matrix.Length1 == Trunc(maxInput) - Trunc(minInput)
      ensures IsResponse(inst.matrix, rmf, arf, Trunc(minInput))
      ensures inst.energyEdges.Length == inst.matrix.Length1 + 1
      ensures inst.energyEdges[0] == arf[Trunc(minInput), ArfLow]
      ensures forall k :: 1 <= k < inst.energyEdges.Length ==>
                inst.energyEdges[k] == arf[Trunc(minInput) + k - 1, ArfHigh]
      ensures inst.channels == Arange(FirstChannel, ChannelStop)
      ensures inst.channelEdges == EdgeColumn(edgeTable.value)
      ensures inst.numParams == numParams && inst.bounds == bounds && inst.foldedSignal == None
    {
      var lo: int := 0;
      if minInput != 0.0 {
        lo := Trunc(minInput);
      }
      assert lo == Trunc(minInput);
      var hi := Trunc(maxInput);
      var matrix := TransposedSlice(rmf, lo, hi);
      var edges := EnergyEdges(arf, lo, hi);
      ScaleByArea(matrix, arf, lo);
      assert IsResponse(matrix, rmf, arf, lo);
      var channelEdges := EdgeColumn(edgeTable.value);
      var channels := Arange(FirstChannel, ChannelStop);
      inst := new CustomInstrument(channels, channelEdges, numParams, bounds, matrix, edges);
    }
  }
}
