/**
 * get_batch: the truncated-BPTT window at position i of a batchified corpus
 * (a sequence of time-step rows).  The data rows are the window and the
 * target rows are the same window shifted one step later.
 */
module Batching {
  import opened Wrappers

  /** A Python slice index normalised against a length: negatives count from the end, then clamp to [0, n]. */
  function SliceIndex(idx: int, n: nat): (r: nat)
    ensures r <= n
    ensures 0 <= idx <= n ==> r == idx
  {
    if idx < 0 then (if idx + n < 0 then 0 else idx + n)
    else if idx > n then n
    else idx
  }

  /** s[start:stop] with Python's slicing rules (step 1). */
  function PySlice<T>(s: seq<T>, start: int, stop: int): (r: seq<T>)
    ensures 0 <= start <= stop <= |s| ==> r == s[start..stop]
  {
    var a := SliceIndex(start, |s|);
    var b := SliceIndex(stop, |s|);
    if a < b then s[a..b] else []
  }

  /** `seq_len if seq_len else bptt`: an absent or zero window length falls back to bptt. */
  function WindowLength(seqLen: Option<int>, bptt: int): int
  {
    if seqLen.Some? && seqLen.value != 0 then seqLen.value else bptt
  }

  /** The window length get_batch uses: min(window, len(source) - 1 - i). */
  function BatchLength(n: nat, i: int, seqLen: Option<int>, bptt: int): int
  {
    var w := WindowLength(seqLen, bptt);
    if w < n - 1 - i then w else n - 1 - i
  }

  datatype Batch<T> = Batch(data: seq<T>, target: seq<T>)

  /**
   * get_batch: with i inside the source, data is the window of the source
   * starting at row i and target the same window one row later.
   */
  function GetBatch<T>(source: seq<T>, i: int, seqLen: Option<int>, bptt: int): (b: Batch<T>)
    ensures 0 <= i < |source| - 1 && WindowLength(seqLen, bptt) >= 1 ==>
              var len := BatchLength(|source|, i, seqLen, bptt);
              1 <= len && b.data == source[i .. i + len] && b.target == source[i + 1 .. i + 1 + len]
  {
    var len := BatchLength(|source|, i, seqLen, bptt);
    Batch(PySlice(source, i, i + len), PySlice(source, i + 1, i + 1 + len))
  }

  /** The number of rows a batch at i holds: the window, cut at the end of the source, and never negative. */
  function Rows(n: nat, i: int, seqLen: Option<int>, bptt: int): nat
  {
    var len := BatchLength(n, i, seqLen, bptt);
    if len < 0 then 0 else len
  }

  /** From any position i >= 0 and with a positive window, data and target both hold Rows rows. */
  lemma GetBatchLengths<T>(source: seq<T>, i: int, seqLen: Option<int>, bptt: int)
    requires i >= 0 && WindowLength(seqLen, bptt) >= 1
    ensures var b := GetBatch(source, i, seqLen, bptt);
            |b.data| == Rows(|source|, i, seqLen, bptt) && |b.target| == Rows(|source|, i, seqLen, bptt)
  {
    var n := |source|;
    var len := BatchLength(n, i, seqLen, bptt);
    if i > n - 1 {
      assert SliceIndex(i, n) == n && SliceIndex(i + 1, n) == n;
    }
  }

  /**
   * From any position i >= 0 and with a positive window, data and target
   * have the same length min(window, len - 1 - i) (zero past the end); data
   * row k is source row i + k and target row k is source row i + 1 + k.
   */
  lemma GetBatchShape<T>(source: seq<T>, i: int, seqLen: Option<int>, bptt: int)
    requires i >= 0 && WindowLength(seqLen, bptt) >= 1
    ensures var b := GetBatch(source, i, seqLen, bptt);
            var rows := Rows(|source|, i, seqLen, bptt);
            |b.data| == rows && |b.target| == rows &&
            (forall k :: 0 <= k < rows ==> b.data[k] == source[i + k] && b.target[k] == source[i + 1 + k])
  {
    var n := |source|;
    var len := BatchLength(n, i, seqLen, bptt);
    if i <= n - 1 {
      assert 0 <= len && i + 1 + len <= n;
    } else {
      assert len == n - 1 - i;
      assert SliceIndex(i, n) == n && SliceIndex(i + 1, n) == n;
    }
  }

  /** The target is the data shifted by one position in the source: target row k is data row k + 1. */
  lemma TargetIsShiftedData<T>(source: seq<T>, i: int, seqLen: Option<int>, bptt: int, k: nat)
    requires i >= 0 && WindowLength(seqLen, bptt) >= 1
    requires k + 1 < Rows(|source|, i, seqLen, bptt)
    ensures GetBatch(source, i, seqLen, bptt).target[k] == GetBatch(source, i, seqLen, bptt).data[k + 1]
  {
    GetBatchShape(source, i, seqLen, bptt);
  }
}
