/**
 * The discrete control of the training scripts around the tensor calls:
 * the device-divisibility check, the batch schedule of one training epoch
 * (with the per-device hidden states detached and advanced), the batch
 * schedule and token count of evaluate, and the perplexity guard.
 */
module Training {
  import opened Wrappers
  import opened Batching
  import opened HiddenState
  import opened PyFloat

  // ---------------------------------------------------------------------------
  // Configuration checks

  datatype ConfigError = BatchNotDivisible(batchSize: int, devices: nat) | AlphaNeedsWeightDropout

  /**
   * The batch size must be a multiple of the number of devices; each device
   * then starts from a begin state of batch_size // devices rows.
   */
  function RowsPerDevice(batchSize: int, numDevices: nat): (r: Result<int, ConfigError>)
    requires numDevices >= 1
    ensures r.Success? <==> batchSize % numDevices == 0
    ensures r.Success? ==> r.value * numDevices == batchSize
  {
    if batchSize % numDevices != 0 then Failure(BatchNotDivisible(batchSize, numDevices))
    else Success(batchSize / numDevices)
  }

  /**
   * The ELMo script's two start-up checks, in order: divisibility, then
   * activation regularisation (alpha) only together with weight dropout.
   */
  function CheckElmoConfig(batchSize: int, numDevices: nat, weightDropout: real, alpha: real): (r: Result<int, ConfigError>)
    requires numDevices >= 1
    ensures r.Success? <==> batchSize % numDevices == 0 && (weightDropout > 0.0 || (weightDropout == 0.0 && alpha == 0.0))
    ensures r == Failure(AlphaNeedsWeightDropout) ==> batchSize % numDevices == 0
    ensures r.Success? ==> r.value * numDevices == batchSize
  {
    var rows := RowsPerDevice(batchSize, numDevices);
    if rows.Failure? then rows
    else if !(weightDropout > 0.0 || (weightDropout == 0.0 && alpha == 0.0)) then Failure(AlphaNeedsWeightDropout)
    else rows
  }

  // ---------------------------------------------------------------------------
  // One training epoch

  /**
   * What one device does with one batch (split, forward, loss, backward) as
   * far as the loop can see it: batch number, device index, data, target and
   * its detached state give its new state.  The batch number stands for the
   * parameters, which the optimizer step changes between batches.
   */
  type DeviceStep<!T, !H> = (nat, nat, seq<T>, seq<T>, Hidden<H>) -> Hidden<H>

  /** hiddens = detach(hiddens), then hiddens[j] = the state device j returns. */
  function DeviceRound<T, H>(f: DeviceStep<T, H>, batchI: nat, b: Batch<T>, hs: seq<Hidden<H>>): (r: seq<Hidden<H>>)
    ensures |r| == |hs|
  {
    var detached := Detach(List(hs)).items;
    seq(|hs|, j requires 0 <= j < |hs| => f(batchI, j, b.data, b.target, detached[j]))
  }

  /**
   * The body of the batch loop after get_batch: detach the per-device
   * states, then device j replaces state j and nothing else.
   */
  method TrainBatch<T, H>(f: DeviceStep<T, H>, batchI: nat, b: Batch<T>, hs: seq<Hidden<H>>)
    returns (hiddens: seq<Hidden<H>>)
    ensures hiddens == DeviceRound(f, batchI, b, hs)
  {
    hiddens := Detach(List(hs)).items;
    ghost var detached := hiddens;
    var j := 0;
    while j < |hiddens|
      invariant 0 <= j <= |hiddens| == |detached| == |hs|
      invariant forall k :: 0 <= k < j ==> hiddens[k] == f(batchI, k, b.data, b.target, detached[k])
      invariant forall k :: j <= k < |hiddens| ==> hiddens[k] == detached[k]
    {
      hiddens := hiddens[j := f(batchI, j, b.data, b.target, hiddens[j])];
      j := j + 1;
    }
  }

  /** The rest of an epoch from position i and batch number batchI: the final states and batch count. */
  function TrainFrom<T, H>(source: seq<T>, bptt: int, i: int, batchI: nat, hs: seq<Hidden<H>>, f: DeviceStep<T, H>): (r: (seq<Hidden<H>>, nat))
    requires bptt >= 1
    ensures |r.0| == |hs|
    decreases |source| - i
  {
    if i < |source| - 1 - 1 then
      TrainFrom(source, bptt, i + bptt, batchI + 1, DeviceRound(f, batchI, GetBatch(source, i, Some(bptt), bptt), hs), f)
    else (hs, batchI)
  }

  /**
   * The batch loop of train for one epoch.  Batches start at 0, bptt,
   * 2 bptt, ... while the start is below len - 2, so the count is the least
   * multiple of bptt reaching len - 2; every device keeps its own state.
   */
  method TrainEpoch<T, H>(source: seq<T>, bptt: int, begin: seq<Hidden<H>>, f: DeviceStep<T, H>)
    returns (hiddens: seq<Hidden<H>>, batches: nat)
    requires bptt >= 1
    ensures (hiddens, batches) == TrainFrom(source, bptt, 0, 0, begin, f)
  {
    hiddens := begin;
    var batchI: nat, i: nat := 0, 0;
    while i < |source| - 1 - 1
      invariant TrainFrom(source, bptt, i, batchI, hiddens, f) == TrainFrom(source, bptt, 0, 0, begin, f)
      decreases |source| - i
    {
      var seqLen := bptt;
      var b := GetBatch(source, i, Some(seqLen), bptt);
      hiddens := TrainBatch(f, batchI, b, hiddens);
      i := i + seqLen;
      batchI := batchI + 1;
    }
    batches := batchI;
  }

  /**
   * From position i and batch number batchI, the epoch runs until the
   * first start at or beyond len - 2: the count it reaches is the least
   * with i + (count - batchI) * bptt >= len - 2.
   */
  lemma {:induction false} TrainFromCount<T, H>(source: seq<T>, bptt: int, i: nat, batchI: nat, hs: seq<Hidden<H>>, f: DeviceStep<T, H>)
    requires bptt >= 1
    ensures var c := TrainFrom(source, bptt, i, batchI, hs, f).1;
            (i >= |source| - 2 ==> c == batchI) &&
            (i < |source| - 2 ==> c > batchI && i + (c - 1 - batchI) * bptt < |source| - 2 <= i + (c - batchI) * bptt)
    decreases |source| - i
  {
    if i < |source| - 2 {
      var next := DeviceRound(f, batchI, GetBatch(source, i, Some(bptt), bptt), hs);
      TrainFromCount(source, bptt, i + bptt, batchI + 1, next, f);
      var c := TrainFrom(source, bptt, i + bptt, batchI + 1, next, f).1;
      if i + bptt < |source| - 2 {
        NextMultiple(c - 2 - batchI, bptt);
        NextMultiple(c - 1 - batchI, bptt);
      }
    }
  }

  /**
   * An epoch's batch count: none for a source of two rows or fewer, and
   * otherwise the least multiple of bptt reaching len - 2.
   */
  lemma TrainBatchCount<T, H>(source: seq<T>, bptt: int, begin: seq<Hidden<H>>, f: DeviceStep<T, H>)
    requires bptt >= 1
    ensures var batches := TrainFrom(source, bptt, 0, 0, begin, f).1;
            (|source| <= 2 ==> batches == 0) &&
            (|source| > 2 ==> (batches - 1) * bptt < |source| - 2 <= batches * bptt)
  {
    TrainFromCount(source, bptt, 0, 0, begin, f);
  }

  lemma NextMultiple(k: int, b: int)
    ensures (k + 1) * b == k * b + b
  {
  }

  /** Every training batch is non-empty and no longer than bptt, and it ends before the next one starts. */
  lemma TrainBatchRows(n: nat, bptt: int, i: int)
    requires bptt >= 1 && 0 <= i < n - 2
    ensures 1 <= Rows(n, i, Some(bptt), bptt) <= bptt
    ensures i + Rows(n, i, Some(bptt), bptt) <= i + bptt
  {
  }

  /**
   * The rows the last training batch reaches: the data windows tile
   * 0 .. end without gaps, and end is len - 1 (every row but the last is a
   * data row) except when len - 2 is a multiple of bptt, where the final
   * one-row window is never visited and end is len - 2.
   */
  lemma TrainCoverage(n: nat, bptt: int, batches: nat)
    requires bptt >= 1 && n > 2
    requires (batches - 1) * bptt < n - 2 <= batches * bptt
    ensures batches >= 1
    ensures var last := (batches - 1) * bptt;
            last + Rows(n, last, Some(bptt), bptt) == (if n - 2 == batches * bptt then n - 2 else n - 1)
  {
    var last := (batches - 1) * bptt;
    assert batches * bptt == last + bptt;
  }

  // ---------------------------------------------------------------------------
  // evaluate

  /** The two scripts count evaluated tokens differently. */
  datatype Script = ElmoScript | BiScript

  /** What one model call gives evaluate: summed forward and backward losses and the new state. */
  datatype EvalStep<H> = EvalStep(forwardLoss: real, backwardLoss: real, hidden: Hidden<H>)

  type EvalModel<!T, !H> = (seq<T>, seq<T>, Hidden<H>) -> EvalStep<H>

  /**
   * Tokens added to ntotal for one batch of the given width: the ELMo script
   * adds twice the size of the backward loss (one per data token), the other
   * script adds the sizes of both losses (target tokens and data tokens).
   */
  function TokensCounted<T>(script: Script, b: Batch<T>, width: nat): (r: nat)
    ensures |b.target| == |b.data| ==> r == 2 * width * |b.data|
  {
    match script
    case ElmoScript => 2 * (|b.data| * width)
    case BiScript => |b.target| * width + |b.data| * width
  }

  /** The summed forward and backward losses from position i on, with windows of bptt rows and the state detached between batches. */
  function EvalLoss<T, H>(source: seq<T>, bptt: int, i: nat, h: Hidden<H>, model: EvalModel<T, H>): real
    requires bptt >= 1
    decreases |source| - i
  {
    if i < |source| - 1 then
      var b := GetBatch(source, i, None, bptt);
      var out := model(b.data, b.target, h);
      out.forwardLoss + out.backwardLoss + EvalLoss(source, bptt, i + bptt, Detach(out.hidden), model)
    else 0.0
  }

  /** The tokens counted from position i on; they depend on the batch shapes only, not on the model. */
  function EvalTokens<T>(source: seq<T>, width: nat, bptt: int, script: Script, i: nat): nat
    requires bptt >= 1
    decreases |source| - i
  {
    if i < |source| - 1 then
      TokensCounted(script, GetBatch(source, i, None, bptt), width) + EvalTokens(source, width, bptt, script, i + bptt)
    else 0
  }

  /** The rows the windows from position i cover, window after window. */
  function WindowRows(n: int, i: int, bptt: int): int
    requires bptt >= 1
    decreases n - i
  {
    if i < n - 1 then (if bptt < n - 1 - i then bptt else n - 1 - i) + WindowRows(n, i + bptt, bptt) else 0
  }

  /** The windows from i cover every row from i to n - 2 exactly once. */
  lemma {:induction false} WindowRowsCover(n: int, i: int, bptt: int)
    requires bptt >= 1
    ensures WindowRows(n, i, bptt) == if i < n - 1 then n - 1 - i else 0
    decreases n - i
  {
    if i < n - 1 {
      WindowRowsCover(n, i + bptt, bptt);
    }
  }

  /** evaluate counts 2 * width tokens for every row its windows cover. */
  lemma {:induction false} EvalTokensPerRow<T>(source: seq<T>, width: nat, bptt: int, script: Script, i: nat)
    requires bptt >= 1
    ensures EvalTokens(source, width, bptt, script, i) == 2 * width * WindowRows(|source|, i, bptt)
    decreases |source| - i
  {
    if i < |source| - 1 {
      EvalTokensStep(source, width, bptt, script, i);
      EvalTokensPerRow(source, width, bptt, script, i + bptt);
      Distribute(2 * width, Rows(|source|, i, None, bptt), WindowRows(|source|, i + bptt, bptt), WindowRows(|source|, i, bptt));
    }
  }

  /**
   * Whatever the script, the evaluated windows from i on cover every source
   * row from i up to the second-to-last exactly once in each direction:
   * the token count is 2 * width * (len - 1 - i).
   */
  lemma EvalTokenCount<T>(source: seq<T>, width: nat, bptt: int, script: Script, i: nat)
    requires bptt >= 1
    ensures i < |source| - 1 ==> EvalTokens(source, width, bptt, script, i) == 2 * width * (|source| - 1 - i)
    ensures i >= |source| - 1 ==> EvalTokens(source, width, bptt, script, i) == 0
  {
    EvalTokensPerRow(source, width, bptt, script, i);
    WindowRowsCover(|source|, i, bptt);
  }

  /** One evaluated batch contributes 2 * width tokens per row it holds. */
  lemma EvalTokensStep<T>(source: seq<T>, width: nat, bptt: int, script: Script, i: nat)
    requires bptt >= 1 && i < |source| - 1
    ensures EvalTokens(source, width, bptt, script, i)
         == 2 * width * Rows(|source|, i, None, bptt) + EvalTokens(source, width, bptt, script, i + bptt)
  {
    GetBatchLengths(source, i, None, bptt);
  }

  lemma Distribute(c: int, a: int, b: int, total: int)
    requires a + b == total
    ensures c * a + c * b == c * total
  {
  }


  /** total_L / ntotal; no value where Python would raise a division by zero. */
  function MeanLoss(total: real, count: nat): (r: Option<real>)
    ensures r.None? <==> count == 0
  {
    if count == 0 then None else Some(total / (count as real))
  }

  /** The loss and token updates evaluate makes for one batch, in each script's order. */
  method AddBatch<T, H>(script: Script, width: nat, b: Batch<T>, out: EvalStep<H>, totalL: real, ntotal: nat)
    returns (totalL': real, ntotal': nat)
    ensures totalL' == totalL + out.forwardLoss + out.backwardLoss
    ensures ntotal' == ntotal + TokensCounted(script, b, width)
  {
    totalL', ntotal' := totalL + out.forwardLoss, ntotal;
    match script {
      case ElmoScript =>
        totalL' := totalL' + out.backwardLoss;
        ntotal' := ntotal' + 2 * (|b.data| * width);
      case BiScript =>
        ntotal' := ntotal' + |b.target| * width;
        totalL' := totalL' + out.backwardLoss;
        ntotal' := ntotal' + |b.data| * width;
    }
  }

  /**
   * One pass of evaluate's loop at position i: the batch's losses and
   * tokens move from what remains to what is accumulated.
   */
  method EvalBatch<T, H>(source: seq<T>, width: nat, bptt: int, script: Script, i: nat, hidden: Hidden<H>, model: EvalModel<T, H>,
                         totalL: real, ntotal: nat, ghost allL: real, ghost allN: nat)
    returns (i': nat, hidden': Hidden<H>, totalL': real, ntotal': nat)
    requires bptt >= 1 && i < |source| - 1
    requires allL == totalL + EvalLoss(source, bptt, i, hidden, model)
    requires allN == ntotal + EvalTokens(source, width, bptt, script, i)
    ensures i' == i + bptt
    ensures allL == totalL' + EvalLoss(source, bptt, i', hidden', model)
    ensures allN == ntotal' + EvalTokens(source, width, bptt, script, i')
  {
    i' := i + bptt;
    var b := GetBatch(source, i, None, bptt);
    var out := model(b.data, b.target, hidden);
    hidden' := Detach(out.hidden);
    totalL', ntotal' := AddBatch(script, width, b, out, totalL, ntotal);
  }

  /** Past the last row nothing is left to evaluate. */
  lemma EvalPastEnd<T, H>(source: seq<T>, width: nat, bptt: int, script: Script, i: nat, h: Hidden<H>, model: EvalModel<T, H>)
    requires bptt >= 1 && i >= |source| - 1
    ensures EvalLoss(source, bptt, i, h, model) == 0.0 && EvalTokens(source, width, bptt, script, i) == 0
  {
  }

  /**
   * evaluate: windows at 0, bptt, 2 bptt, ... below len - 1, the state
   * detached after every model call; the result is the loss sum over the
   * token count, or no result when nothing was counted (a division by zero).
   */
  method Evaluate<T, H>(source: seq<T>, width: nat, bptt: int, script: Script, begin: Hidden<H>, model: EvalModel<T, H>)
    returns (loss: Option<real>)
    requires bptt >= 1
    ensures loss == MeanLoss(EvalLoss(source, bptt, 0, begin, model), EvalTokens(source, width, bptt, script, 0))
  {
    var totalL, ntotal: nat := 0.0, 0;
    var hidden := begin;
    var i: nat := 0;
    while i < |source| - 1
      invariant EvalLoss(source, bptt, 0, begin, model) == totalL + EvalLoss(source, bptt, i, hidden, model)
      invariant EvalTokens(source, width, bptt, script, 0) == ntotal + EvalTokens(source, width, bptt, script, i)
      decreases |source| - i
    {
      i, hidden, totalL, ntotal := EvalBatch(source, width, bptt, script, i, hidden, model, totalL, ntotal,
                                             EvalLoss(source, bptt, 0, begin, model), EvalTokens(source, width, bptt, script, 0));
    }
    EvalPastEnd(source, width, bptt, script, i, hidden, model);
    loss := MeanLoss(totalL, ntotal);
  }

  /** evaluate yields a loss exactly when the batch width is positive and the source has at least two rows. */
  lemma EvaluateDefined<T, H>(source: seq<T>, width: nat, bptt: int, script: Script, begin: Hidden<H>, model: EvalModel<T, H>)
    requires bptt >= 1
    ensures MeanLoss(EvalLoss(source, bptt, 0, begin, model), EvalTokens(source, width, bptt, script, 0)).Some?
            <==> width >= 1 && |source| >= 2
  {
    EvalTokenCount(source, width, bptt, script, 0);
    if |source| >= 2 {
      ProductZero(2 * width, |source| - 1);
    }
  }

  lemma ProductZero(a: nat, b: nat)
    ensures a * b == 0 <==> a == 0 || b == 0
  {
  }

  // ---------------------------------------------------------------------------
  // get_ppl

  datatype Perplexity = Finite(value: real) | Infinity

  /** exp(loss) when it does not overflow; infinity in place of the overflow error. */
  function GetPpl(curLoss: real, exp: real -> real): (r: Perplexity)
    ensures r == Infinity <==> ExpOverflows(curLoss)
    ensures r.Finite? ==> r.value == exp(curLoss)
  {
    if ExpOverflows(curLoss) then Infinity else Finite(exp(curLoss))
  }

  predicate PplAtMost(a: Perplexity, b: Perplexity)
  {
    b == Infinity || (a.Finite? && a.value <= b.value)
  }

  /** A larger loss never gives a smaller perplexity, overflow included, provided exp is monotone. */
  lemma GetPplMonotone(a: real, b: real, exp: real -> real)
    requires a <= b
    requires forall x: real, y: real :: x <= y ==> exp(x) <= exp(y)
    ensures PplAtMost(GetPpl(a, exp), GetPpl(b, exp))
  {
  }
}
