/**
 * One time step of the projected LSTM cell with optional hard clipping of the
 * cell state and of the projection (LSTMPCellWithClip).
 *
 * Vectors are one row of the batch: every operation of the cell works
 * row by row, so a single row shows all of its behaviour.  The affine maps
 * (FullyConnected) are written out as matrix-vector products over reals;
 * sigmoid and tanh are left uninterpreted and passed in.
 */
module LstmpCell {
  import opened Wrappers

  type Vector = seq<real>
  type Matrix = seq<Vector>

  /** The element-wise activations the cell applies; only their values at given points matter. */
  datatype Activations = Activations(sigmoid: real -> real, tanh: real -> real)

  /** Constructor arguments of the cell that shape its computation. */
  datatype CellConfig = CellConfig(
    hiddenSize: nat,
    projectionSize: nat,
    inputSize: nat,
    cellClip: Option<real>,
    projectionClip: Option<real>)

  /** The five parameter tensors handed to the forward step. */
  datatype Weights = Weights(
    i2hWeight: Matrix,
    h2hWeight: Matrix,
    h2rWeight: Matrix,
    i2hBias: Vector,
    h2hBias: Vector)

  /** A clip bound, when present, must be non-negative so the clamp range is not empty. */
  predicate ValidBound(bound: Option<real>)
  {
    bound.Some? ==> bound.value >= 0.0
  }

  /** A matrix of `rows` rows, each of width `cols`. */
  predicate MatrixShape(m: Matrix, rows: nat, cols: nat)
  {
    |m| == rows && forall k :: 0 <= k < |m| ==> |m[k]| == cols
  }

  /** Parameters and clip bounds agree with the configured sizes. */
  predicate WellFormed(cfg: CellConfig, w: Weights)
  {
    ValidBound(cfg.cellClip) && ValidBound(cfg.projectionClip) &&
    MatrixShape(w.i2hWeight, 4 * cfg.hiddenSize, cfg.inputSize) &&
    MatrixShape(w.h2hWeight, 4 * cfg.hiddenSize, cfg.projectionSize) &&
    MatrixShape(w.h2rWeight, cfg.projectionSize, cfg.hiddenSize) &&
    |w.i2hBias| == 4 * cfg.hiddenSize && |w.h2hBias| == 4 * cfg.hiddenSize
  }

  // ---------------------------------------------------------------------------
  // Clipping

  /** Hard clamp of one value to [-b, b] (the clip operator with a_min = -b, a_max = b). */
  function Clamp(x: real, b: real): (r: real)
    requires b >= 0.0
    ensures -b <= r <= b
    ensures r == x || r == b || r == -b
  {
    if x < -b then -b else if x > b then b else x
  }

  /** Element-wise clamp of a vector. */
  function Clipped(s: Vector, b: real): (r: Vector)
    requires b >= 0.0
    ensures |r| == |s|
  {
    seq(|s|, k requires 0 <= k < |s| => Clamp(s[k], b))
  }

  /** Clip with an optional bound: no bound means no clipping. */
  function ClipBy(s: Vector, bound: Option<real>): (r: Vector)
    requires ValidBound(bound)
    ensures |r| == |s|
  {
    match bound
    case None => s
    case Some(b) => Clipped(s, b)
  }

  /** Every element of a clipped vector lies in [-b, b]. */
  lemma ClippedWithinBound(s: Vector, b: real)
    requires b >= 0.0
    ensures forall k :: 0 <= k < |s| ==> -b <= Clipped(s, b)[k] <= b
  {
  }

  /** Elements already inside [-b, b] are left as they are by clipping. */
  lemma ClippedKeepsInside(s: Vector, b: real)
    requires b >= 0.0
    requires forall k :: 0 <= k < |s| ==> -b <= s[k] <= b
    ensures Clipped(s, b) == s
  {
  }

  /** Clipping twice with the same bound is clipping once. */
  lemma ClipByIdempotent(s: Vector, bound: Option<real>)
    requires ValidBound(bound)
    ensures ClipBy(ClipBy(s, bound), bound) == ClipBy(s, bound)
  {
    if bound.Some? {
      ClippedWithinBound(s, bound.value);
      ClippedKeepsInside(Clipped(s, bound.value), bound.value);
    }
  }

  /** In-place clip of a buffer, as `clip(x, -b, b, out=x)` does. */
  method ClipInPlace(a: array<real>, b: real)
    requires b >= 0.0
    modifies a
    ensures a[..] == Clipped(old(a[..]), b)
  {
    forall k | 0 <= k < a.Length {
      a[k] := Clamp(a[k], b);
    }
  }

  // ---------------------------------------------------------------------------
  // Affine maps and gate slicing

  function Dot(u: Vector, v: Vector): real
    requires |u| == |v|
  {
    if u == [] then 0.0 else u[0] * v[0] + Dot(u[1..], v[1..])
  }

  /** Matrix-vector product, FullyConnected without bias. */
  function MatVec(m: Matrix, x: Vector): (r: Vector)
    requires forall k :: 0 <= k < |m| ==> |m[k]| == |x|
    ensures |r| == |m|
    ensures forall k :: 0 <= k < |m| ==> r[k] == Dot(m[k], x)
  {
    seq(|m|, k requires 0 <= k < |m| => Dot(m[k], x))
  }

  function Add(u: Vector, v: Vector): (r: Vector)
    requires |u| == |v|
    ensures |r| == |u|
  {
    seq(|u|, k requires 0 <= k < |u| => u[k] + v[k])
  }

  function Mul(u: Vector, v: Vector): (r: Vector)
    requires |u| == |v|
    ensures |r| == |u|
  {
    seq(|u|, k requires 0 <= k < |u| => u[k] * v[k])
  }

  function Apply(f: real -> real, v: Vector): (r: Vector)
    ensures |r| == |v|
  {
    seq(|v|, k requires 0 <= k < |v| => f(v[k]))
  }

  /** FullyConnected with bias. */
  function Affine(m: Matrix, x: Vector, bias: Vector): (r: Vector)
    requires |bias| == |m|
    requires forall k :: 0 <= k < |m| ==> |m[k]| == |x|
    ensures |r| == |m|
  {
    Add(MatVec(m, x), bias)
  }

  /** SliceChannel with four outputs: split a vector of width 4h into four consecutive parts of width h. */
  function SliceChannel4(v: Vector, h: nat): (parts: seq<Vector>)
    requires |v| == 4 * h
    ensures |parts| == 4
    ensures forall q :: 0 <= q < 4 ==> |parts[q]| == h
    ensures forall k :: 0 <= k < h ==>
              parts[0][k] == v[k] && parts[1][k] == v[h + k] && parts[2][k] == v[2 * h + k] && parts[3][k] == v[3 * h + k]
  {
    [v[..h], v[h .. 2 * h], v[2 * h .. 3 * h], v[3 * h ..]]
  }

  /** The four gates, in the order in which the slices are read. */
  datatype GateValues = GateValues(inGate: Vector, forgetGate: Vector, inTransform: Vector, outGate: Vector)

  /** i2h + h2h, the pre-activation of all four gates. */
  function Preactivation(cfg: CellConfig, w: Weights, x: Vector, r: Vector): (g: Vector)
    requires WellFormed(cfg, w) && |x| == cfg.inputSize && |r| == cfg.projectionSize
    ensures |g| == 4 * cfg.hiddenSize
  {
    Add(Affine(w.i2hWeight, x, w.i2hBias), Affine(w.h2hWeight, r, w.h2hBias))
  }

  function Gates(acts: Activations, pre: Vector, h: nat): (g: GateValues)
    requires |pre| == 4 * h
    ensures |g.inGate| == h && |g.forgetGate| == h && |g.inTransform| == h && |g.outGate| == h
  {
    var s := SliceChannel4(pre, h);
    GateValues(Apply(acts.sigmoid, s[0]), Apply(acts.sigmoid, s[1]),
               Apply(acts.tanh, s[2]), Apply(acts.sigmoid, s[3]))
  }

  /** The cell update before clipping, f * c + i * g. */
  function UnclippedCell(g: GateValues, c: Vector): (r: Vector)
    requires |g.inGate| == |g.forgetGate| == |g.inTransform| == |c|
    ensures |r| == |c|
  {
    Add(Mul(g.forgetGate, c), Mul(g.inGate, g.inTransform))
  }

  /** The hidden vector o * tanh(c) before projection. */
  function HiddenOf(acts: Activations, g: GateValues, c: Vector): (r: Vector)
    requires |g.outGate| == |c|
    ensures |r| == |c|
  {
    Mul(g.outGate, Apply(acts.tanh, c))
  }

  /** What one step returns: the output and the new [r, c] state. */
  datatype StepResult = StepResult(output: Vector, nextR: Vector, nextC: Vector)

  /** One step of the cell, from input x and state [r, c]. */
  function Step(cfg: CellConfig, w: Weights, acts: Activations, x: Vector, r: Vector, c: Vector): (res: StepResult)
    requires WellFormed(cfg, w)
    requires |x| == cfg.inputSize && |r| == cfg.projectionSize && |c| == cfg.hiddenSize
    ensures |res.nextC| == cfg.hiddenSize && |res.nextR| == cfg.projectionSize
    ensures res.output == res.nextR
  {
    var g := Gates(acts, Preactivation(cfg, w, x, r), cfg.hiddenSize);
    var nextC := ClipBy(UnclippedCell(g, c), cfg.cellClip);
    var nextR := ClipBy(MatVec(w.h2rWeight, HiddenOf(acts, g, nextC)), cfg.projectionClip);
    StepResult(nextR, nextR, nextC)
  }

  /**
   * The gate slices are read in the order i, f, g, o: element k of the
   * unclipped cell state and of the hidden vector in terms of the
   * pre-activation vector indexed directly.
   */
  lemma GateOrder(acts: Activations, pre: Vector, h: nat, c: Vector, k: nat)
    requires |pre| == 4 * h && |c| == h && k < h
    ensures UnclippedCell(Gates(acts, pre, h), c)[k]
         == acts.sigmoid(pre[h + k]) * c[k] + acts.sigmoid(pre[k]) * acts.tanh(pre[2 * h + k])
    ensures HiddenOf(acts, Gates(acts, pre, h), c)[k] == acts.sigmoid(pre[3 * h + k]) * acts.tanh(c[k])
  {
  }

  /** With a cell clip b, every element of the returned cell state lies in [-b, b]. */
  lemma CellStateWithinClip(cfg: CellConfig, w: Weights, acts: Activations, x: Vector, r: Vector, c: Vector)
    requires WellFormed(cfg, w)
    requires |x| == cfg.inputSize && |r| == cfg.projectionSize && |c| == cfg.hiddenSize
    requires cfg.cellClip.Some?
    ensures forall k :: 0 <= k < cfg.hiddenSize ==>
              -cfg.cellClip.value <= Step(cfg, w, acts, x, r, c).nextC[k] <= cfg.cellClip.value
  {
    var g := Gates(acts, Preactivation(cfg, w, x, r), cfg.hiddenSize);
    ClippedWithinBound(UnclippedCell(g, c), cfg.cellClip.value);
  }

  /** With a projection clip b, every element of the returned projection, output and state[0], lies in [-b, b]. */
  lemma ProjectionWithinClip(cfg: CellConfig, w: Weights, acts: Activations, x: Vector, r: Vector, c: Vector)
    requires WellFormed(cfg, w)
    requires |x| == cfg.inputSize && |r| == cfg.projectionSize && |c| == cfg.hiddenSize
    requires cfg.projectionClip.Some?
    ensures forall k :: 0 <= k < cfg.projectionSize ==>
              -cfg.projectionClip.value <= Step(cfg, w, acts, x, r, c).output[k] <= cfg.projectionClip.value
  {
    var g := Gates(acts, Preactivation(cfg, w, x, r), cfg.hiddenSize);
    var nextC := ClipBy(UnclippedCell(g, c), cfg.cellClip);
    ClippedWithinBound(MatVec(w.h2rWeight, HiddenOf(acts, g, nextC)), cfg.projectionClip.value);
  }

  /**
   * Without clip bounds the step is the plain projected LSTM: the cell state
   * is f * c + i * g and the output is W_hr (o * tanh(c')), unchanged.
   */
  lemma UnclippedStepIsPlainLstmp(cfg: CellConfig, w: Weights, acts: Activations, x: Vector, r: Vector, c: Vector)
    requires WellFormed(cfg, w)
    requires |x| == cfg.inputSize && |r| == cfg.projectionSize && |c| == cfg.hiddenSize
    requires cfg.cellClip.None? && cfg.projectionClip.None?
    ensures var g := Gates(acts, Preactivation(cfg, w, x, r), cfg.hiddenSize);
            var res := Step(cfg, w, acts, x, r, c);
            res.nextC == UnclippedCell(g, c) &&
            res.output == MatVec(w.h2rWeight, HiddenOf(acts, g, res.nextC))
  {
  }

  /**
   * The step as a hybridized cell's symbolic graph computes it: each
   * `F.clip(..., out=...)` yields a new symbol whose value nothing uses, so
   * the cell state and the projection go on unclipped.
   */
  function TracedStep(cfg: CellConfig, w: Weights, acts: Activations, x: Vector, r: Vector, c: Vector): (res: StepResult)
    requires WellFormed(cfg, w)
    requires |x| == cfg.inputSize && |r| == cfg.projectionSize && |c| == cfg.hiddenSize
    ensures |res.nextC| == cfg.hiddenSize && |res.nextR| == cfg.projectionSize
    ensures res.output == res.nextR
  {
    var g := Gates(acts, Preactivation(cfg, w, x, r), cfg.hiddenSize);
    var nextC := UnclippedCell(g, c);
    var nextR := MatVec(w.h2rWeight, HiddenOf(acts, g, nextC));
    StepResult(nextR, nextR, nextC)
  }

  /** The traced step is the step of the same cell with both clip bounds dropped, whatever the bounds are. */
  lemma TracedStepIgnoresClips(cfg: CellConfig, w: Weights, acts: Activations, x: Vector, r: Vector, c: Vector)
    requires WellFormed(cfg, w)
    requires |x| == cfg.inputSize && |r| == cfg.projectionSize && |c| == cfg.hiddenSize
    ensures TracedStep(cfg, w, acts, x, r, c) == Step(cfg.(cellClip := None, projectionClip := None), w, acts, x, r, c)
  {
  }

  /**
   * A cell with cell_clip 1.0 whose traced step returns a cell state of 2.5:
   * zero weights and biases, so every gate reads 0, and a previous cell
   * state of 5.0.  With sigmoid(0) = 0.5 and tanh(0) = 0, as for the real
   * functions, f * c + i * g = 0.5 * 5.0 + 0.5 * 0.0.  The clipped step
   * returns 1.0 for the same cell.
   */
  lemma TracedStepExceedsCellClip(acts: Activations)
    requires acts.sigmoid(0.0) == 0.5 && acts.tanh(0.0) == 0.0
    ensures var cfg := CellConfig(1, 1, 1, Some(1.0), None);
            var w := Weights([[0.0], [0.0], [0.0], [0.0]], [[0.0], [0.0], [0.0], [0.0]], [[0.0]],
                             [0.0, 0.0, 0.0, 0.0], [0.0, 0.0, 0.0, 0.0]);
            WellFormed(cfg, w) &&
            TracedStep(cfg, w, acts, [0.0], [0.0], [5.0]).nextC == [2.5] &&
            Step(cfg, w, acts, [0.0], [0.0], [5.0]).nextC == [1.0]
  {
    var cfg := CellConfig(1, 1, 1, Some(1.0), None);
    var w := Weights([[0.0], [0.0], [0.0], [0.0]], [[0.0], [0.0], [0.0], [0.0]], [[0.0]],
                     [0.0, 0.0, 0.0, 0.0], [0.0, 0.0, 0.0, 0.0]);
    assert WellFormed(cfg, w);
    var pre := Preactivation(cfg, w, [0.0], [0.0]);
    assert pre == [0.0, 0.0, 0.0, 0.0];
    var g := Gates(acts, pre, 1);
    GateOrder(acts, pre, 1, [5.0], 0);
    assert UnclippedCell(g, [5.0])[0] == 2.5;
    assert UnclippedCell(g, [5.0]) == [2.5];
    assert Clipped([2.5], 1.0) == [1.0];
  }

  /**
   * The cell step as the source runs it: the new cell state and the
   * projection are fresh buffers, each clipped in place when its bound is
   * set; the returned output is the same buffer as the first state component.
   */
  method CellStep(cfg: CellConfig, w: Weights, acts: Activations, x: Vector, r: Vector, c: Vector)
    returns (out: array<real>, nextState: seq<array<real>>)
    requires WellFormed(cfg, w)
    requires |x| == cfg.inputSize && |r| == cfg.projectionSize && |c| == cfg.hiddenSize
    ensures |nextState| == 2 && nextState[0] == out && fresh(out) && fresh(nextState[1])
    ensures nextState[1] != out
    ensures var res := Step(cfg, w, acts, x, r, c);
            out[..] == res.nextR && nextState[1][..] == res.nextC
  {
    var h := cfg.hiddenSize;
    var g := Gates(acts, Preactivation(cfg, w, x, r), h);
    var c0 := UnclippedCell(g, c);
    var nextC := new real[h](k requires 0 <= k < h => c0[k]);
    assert nextC[..] == c0;
    if cfg.cellClip.Some? {
      ClipInPlace(nextC, cfg.cellClip.value);
    }
    var hidden := HiddenOf(acts, g, nextC[..]);
    var r0 := MatVec(w.h2rWeight, hidden);
    var p := cfg.projectionSize;
    var nextR := new real[p](k requires 0 <= k < p => r0[k]);
    assert nextR[..] == r0;
    if cfg.projectionClip.Some? {
      ClipInPlace(nextR, cfg.projectionClip.value);
    }
    out := nextR;
    nextState := [nextR, nextC];
  }
}
