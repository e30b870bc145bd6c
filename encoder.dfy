/**
 * The bidirectional multi-layer encoder (ElmoLSTM): layer j's forward chain
 * runs over the time steps in increasing order and its backward chain in
 * decreasing order; layer 0 reads the raw streams and layer j > 0 reads
 * layer j - 1's outputs of the same direction.  A chain is an uninterpreted
 * step function from (layer, direction, input, state) to (output, state):
 * the proofs are about order, lengths and which inputs each output reads.
 */
module Encoder {
  import opened Wrappers
  import StackBuilder

  datatype Direction = Fwd | Bwd

  /** One chain application: (layer, direction, input, state) to (output, new state). */
  type StepFn<!V, !S> = (nat, Direction, V, S) -> (V, S)

  /**
   * The encoder's input: with character embeddings one stream read in both
   * directions; with word embeddings a forward and a backward stream.  The
   * batch size is the second dimension of the (first) input tensor.
   */
  datatype EncoderInput<V> =
    | CharInput(steps: seq<V>, batchSize: nat)
    | WordInput(forwardSteps: seq<V>, backwardSteps: seq<V>, batchSize: nat)

  /** The number of time steps, taken from the (first) input stream. */
  function SeqLen<V>(inputs: EncoderInput<V>): nat
  {
    match inputs
    case CharInput(xs, _) => |xs|
    case WordInput(fs, _, _) => |fs|
  }

  /** The backward stream must reach every time step of the forward stream. */
  predicate WellFormedInput<V>(inputs: EncoderInput<V>)
  {
    inputs.WordInput? ==> |inputs.backwardSteps| >= |inputs.forwardSteps|
  }

  /** What layer 0 of the forward direction reads at each step. */
  function ForwardStream<V>(inputs: EncoderInput<V>): (xs: seq<V>)
    ensures |xs| == SeqLen(inputs)
  {
    match inputs
    case CharInput(xs, _) => xs
    case WordInput(fs, _, _) => fs
  }

  /** What layer 0 of the backward direction reads at each step. */
  function BackwardStream<V>(inputs: EncoderInput<V>): (xs: seq<V>)
    requires WellFormedInput(inputs)
    ensures |xs| == SeqLen(inputs)
  {
    match inputs
    case CharInput(xs, _) => xs
    case WordInput(fs, bs, _) => bs[..|fs|]
  }

  // ---------------------------------------------------------------------------
  // Specification: one layer, one direction

  /** The forward chain over steps 0 .. |xs|-1: the outputs in step order and the final state. */
  function RunForward<V, S>(step: StepFn<V, S>, layer: nat, xs: seq<V>, s: S): (r: (seq<V>, S))
    ensures |r.0| == |xs|
  {
    if xs == [] then ([], s)
    else
      var prev := RunForward(step, layer, xs[..|xs| - 1], s);
      var next := step(layer, Fwd, xs[|xs| - 1], prev.1);
      (prev.0 + [next.0], next.1)
  }

  /** The backward chain over steps |xs|-1 down to 0: output k belongs to step k; the state after step 0. */
  function RunBackward<V, S>(step: StepFn<V, S>, layer: nat, xs: seq<V>, s: S): (r: (seq<V>, S))
    ensures |r.0| == |xs|
  {
    if xs == [] then ([], s)
    else
      var later := RunBackward(step, layer, xs[1..], s);
      var next := step(layer, Bwd, xs[0], later.1);
      ([next.0] + later.0, next.1)
  }

  // ---------------------------------------------------------------------------
  // Specification: the stack of layers

  /** Outputs per layer and the per-layer state list after running some layers. */
  datatype StackRun<V, S> = StackRun(outputs: seq<seq<V>>, states: seq<S>)

  /** Layer 0 reads the raw stream; layer l > 0 reads layer l - 1's outputs. */
  function LayerInput<V>(xs: seq<V>, outputs: seq<seq<V>>, l: nat): seq<V>
    requires l == 0 || l - 1 < |outputs|
  {
    if l == 0 then xs else outputs[l - 1]
  }

  /**
   * Layers 0 .. n-1 of the forward direction: exactly one output per time
   * step in every layer; states of layers n and above are untouched.
   */
  function ForwardStack<V, S>(step: StepFn<V, S>, n: nat, xs: seq<V>, init: seq<S>): (r: StackRun<V, S>)
    requires n <= |init|
    ensures |r.outputs| == n && |r.states| == |init|
    ensures forall l :: 0 <= l < n ==> |r.outputs[l]| == |xs|
    ensures forall l :: n <= l < |init| ==> r.states[l] == init[l]
  {
    if n == 0 then StackRun([], init)
    else
      var prev := ForwardStack(step, n - 1, xs, init);
      var run := RunForward(step, n - 1, LayerInput(xs, prev.outputs, n - 1), prev.states[n - 1]);
      StackRun(prev.outputs + [run.0], prev.states[n - 1 := run.1])
  }

  /** Layers 0 .. n-1 of the backward direction, with the same guarantees. */
  function BackwardStack<V, S>(step: StepFn<V, S>, n: nat, xs: seq<V>, init: seq<S>): (r: StackRun<V, S>)
    requires n <= |init|
    ensures |r.outputs| == n && |r.states| == |init|
    ensures forall l :: 0 <= l < n ==> |r.outputs[l]| == |xs|
    ensures forall l :: n <= l < |init| ==> r.states[l] == init[l]
  {
    if n == 0 then StackRun([], init)
    else
      var prev := BackwardStack(step, n - 1, xs, init);
      var run := RunBackward(step, n - 1, LayerInput(xs, prev.outputs, n - 1), prev.states[n - 1]);
      StackRun(prev.outputs + [run.0], prev.states[n - 1 := run.1])
  }

  // ---------------------------------------------------------------------------
  // Causality and independence

  lemma {:induction false} RunForwardPrefix<V, S>(step: StepFn<V, S>, layer: nat, xs: seq<V>, s: S, k: nat)
    requires k <= |xs|
    ensures RunForward(step, layer, xs, s).0[..k] == RunForward(step, layer, xs[..k], s).0
  {
    if k < |xs| {
      var ys := xs[..|xs| - 1];
      RunForwardPrefix(step, layer, ys, s, k);
      assert ys[..k] == xs[..k];
    } else {
      assert xs[..k] == xs;
    }
  }

  lemma {:induction false} RunBackwardSuffix<V, S>(step: StepFn<V, S>, layer: nat, xs: seq<V>, s: S, k: nat)
    requires k <= |xs|
    ensures RunBackward(step, layer, xs, s).0[k..] == RunBackward(step, layer, xs[k..], s).0
  {
    if k == 0 {
      assert xs[k..] == xs;
    } else {
      RunBackwardSuffix(step, layer, xs[1..], s, k - 1);
      assert xs[1..][k - 1..] == xs[k..];
    }
  }

  /** Truncating the input stream after k steps truncates every layer's forward outputs after k steps. */
  lemma {:induction false} ForwardStackPrefix<V, S>(step: StepFn<V, S>, n: nat, xs: seq<V>, init: seq<S>, k: nat)
    requires n <= |init| && k <= |xs|
    ensures forall l :: 0 <= l < n ==>
              ForwardStack(step, n, xs, init).outputs[l][..k] == ForwardStack(step, n, xs[..k], init).outputs[l]
  {
    if n > 0 {
      ForwardStackPrefix(step, n - 1, xs, init, k);
      var prev := ForwardStack(step, n - 1, xs, init);
      var prevK := ForwardStack(step, n - 1, xs[..k], init);
      var input := LayerInput(xs, prev.outputs, n - 1);
      assert LayerInput(xs, prev.outputs, n - 1)[..k] == LayerInput(xs[..k], prevK.outputs, n - 1);
      RunForwardPrefix(step, n - 1, input, prev.states[n - 1], k);
    }
  }

  /** Dropping the first k steps of the input stream drops the first k backward outputs of every layer. */
  lemma {:induction false} BackwardStackSuffix<V, S>(step: StepFn<V, S>, n: nat, xs: seq<V>, init: seq<S>, k: nat)
    requires n <= |init| && k <= |xs|
    ensures forall l :: 0 <= l < n ==>
              BackwardStack(step, n, xs, init).outputs[l][k..] == BackwardStack(step, n, xs[k..], init).outputs[l]
  {
    if n > 0 {
      BackwardStackSuffix(step, n - 1, xs, init, k);
      var prev := BackwardStack(step, n - 1, xs, init);
      var prevK := BackwardStack(step, n - 1, xs[k..], init);
      var input := LayerInput(xs, prev.outputs, n - 1);
      assert LayerInput(xs, prev.outputs, n - 1)[k..] == LayerInput(xs[k..], prevK.outputs, n - 1);
      RunBackwardSuffix(step, n - 1, input, prev.states[n - 1], k);
    }
  }

  /** The forward output of any layer at step i depends only on steps 0 .. i of the forward stream. */
  lemma ForwardCausal<V, S>(step: StepFn<V, S>, n: nat, xs: seq<V>, ys: seq<V>, init: seq<S>, l: nat, i: nat)
    requires n <= |init| && l < n && i < |xs| && i < |ys| && xs[..i + 1] == ys[..i + 1]
    ensures ForwardStack(step, n, xs, init).outputs[l][i] == ForwardStack(step, n, ys, init).outputs[l][i]
  {
    ForwardStackPrefix(step, n, xs, init, i + 1);
    ForwardStackPrefix(step, n, ys, init, i + 1);
    assert ForwardStack(step, n, xs, init).outputs[l][..i + 1][i] == ForwardStack(step, n, xs, init).outputs[l][i];
    assert ForwardStack(step, n, ys, init).outputs[l][..i + 1][i] == ForwardStack(step, n, ys, init).outputs[l][i];
  }

  /** The backward output of any layer at step i depends only on steps i .. end of the backward stream. */
  lemma BackwardCausal<V, S>(step: StepFn<V, S>, n: nat, xs: seq<V>, ys: seq<V>, init: seq<S>, l: nat, i: nat)
    requires n <= |init| && l < n && i < |xs| && |xs| == |ys| && xs[i..] == ys[i..]
    ensures BackwardStack(step, n, xs, init).outputs[l][i] == BackwardStack(step, n, ys, init).outputs[l][i]
  {
    BackwardStackSuffix(step, n, xs, init, i);
    BackwardStackSuffix(step, n, ys, init, i);
    assert BackwardStack(step, n, xs, init).outputs[l][i..][0] == BackwardStack(step, n, xs, init).outputs[l][i];
    assert BackwardStack(step, n, ys, init).outputs[l][i..][0] == BackwardStack(step, n, ys, init).outputs[l][i];
  }

  /**
   * Neither direction reads the other's stream, in the results the encoder
   * returns: with word inputs the forward stack is the same for any backward
   * steps, and the backward stack is the same for any forward steps of the
   * same length and for any backward steps past seq_len.
   */
  lemma DirectionsIndependent<V, S>(step: StepFn<V, S>, n: nat, a: EncoderInput<V>, b: EncoderInput<V>, initF: seq<S>, initB: seq<S>)
    requires WellFormedInput(a) && WellFormedInput(b) && n <= |initF| && n <= |initB|
    requires a.WordInput? && b.WordInput?
    ensures a.forwardSteps == b.forwardSteps ==>
              ForwardStack(step, n, ForwardStream(a), initF) == ForwardStack(step, n, ForwardStream(b), initF)
    ensures |a.forwardSteps| == |b.forwardSteps| &&
            a.backwardSteps[..|a.forwardSteps|] == b.backwardSteps[..|a.forwardSteps|] ==>
              BackwardStack(step, n, BackwardStream(a), initB) == BackwardStack(step, n, BackwardStream(b), initB)
  {
  }

  // ---------------------------------------------------------------------------
  // The encoder as the source runs it

  /** The two per-layer state lists, one per direction. */
  datatype StatePair<S> = StatePair(forward: array<S>, backward: array<S>)

  /** Row values once every slot of a pre-filled row has been assigned (mx.nd.stack of the row). */
  function Stacked<V>(row: seq<Option<V>>): (r: seq<V>)
    requires forall k :: 0 <= k < |row| ==> row[k].Some?
    ensures |r| == |row| && forall k :: 0 <= k < |row| ==> Some(r[k]) == row[k]
  {
    seq(|row|, k requires 0 <= k < |row| => row[k].value)
  }

  class ElmoLSTM<V, S> {
    const config: StackBuilder.EncoderConfig
    const numLayers: nat
    const charEmbedding: bool
    /** The forward and backward chain of every layer. */
    const layers: seq<StackBuilder.LayerPair>
    /** Applying a layer's chain once. */
    const step: StepFn<V, S>
    /** The zero state a chain starts from for a given batch size. */
    const beginState: (seq<StackBuilder.Stage>, nat) -> S

    ghost predicate Valid()
    {
      StackBuilder.EncoderLayers(config).Success? &&
      layers == StackBuilder.EncoderLayers(config).value &&
      numLayers == |layers|
    }

    constructor (cfg: StackBuilder.EncoderConfig, charEmbedding: bool, step: StepFn<V, S>,
                 beginState: (seq<StackBuilder.Stage>, nat) -> S)
      requires StackBuilder.EncoderLayers(cfg).Success?
      ensures Valid()
      ensures this.config == cfg && this.charEmbedding == charEmbedding
      ensures this.step == step && this.beginState == beginState
    {
      this.config := cfg;
      this.charEmbedding := charEmbedding;
      this.layers := StackBuilder.EncoderLayers(cfg).value;
      this.numLayers := |StackBuilder.EncoderLayers(cfg).value|;
      this.step := step;
      this.beginState := beginState;
    }

    /** The zero state of every layer in one direction. */
    function BeginStates(dir: Direction, batchSize: nat): (r: seq<S>)
      ensures |r| == |layers|
    {
      seq(|layers|, l requires 0 <= l < |layers| =>
        beginState(if dir == Fwd then layers[l].forward else layers[l].backward, batchSize))
    }

    /** The two directions start from the same zero states, since their chains are configured alike. */
    lemma BeginStatesAgree(batchSize: nat)
      requires Valid()
      ensures BeginStates(Fwd, batchSize) == BeginStates(Bwd, batchSize)
    {
      forall l | 0 <= l < |layers|
        ensures layers[l].forward == layers[l].backward
      {
        StackBuilder.EncoderLayersShape(config, l);
      }
    }

    /** begin_state: fresh zero-state lists for both directions. */
    method BeginState(batchSize: nat) returns (fwd: array<S>, bwd: array<S>)
      ensures fresh(fwd) && fresh(bwd) && fwd != bwd
      ensures fwd[..] == BeginStates(Fwd, batchSize) && bwd[..] == BeginStates(Bwd, batchSize)
    {
      var f := BeginStates(Fwd, batchSize);
      var b := BeginStates(Bwd, batchSize);
      fwd := new S[|f|](k requires 0 <= k < |f| => f[k]);
      bwd := new S[|b|](k requires 0 <= k < |b| => b[k]);
      assert fwd[..] == f;
      assert bwd[..] == b;
    }

    /**
     * forward: run every layer in both directions over all steps. Supplied
     * state lists are updated in place and returned; without states the zero
     * states for the input's batch size are used.  The outputs and final
     * states of each direction are those of the specification stacks over
     * that direction's stream alone.
     */
    method Forward(inputs: EncoderInput<V>, states: Option<StatePair<S>>)
      returns (outF: seq<seq<V>>, outB: seq<seq<V>>, sF: array<S>, sB: array<S>)
      requires Valid()
      requires inputs.CharInput? == charEmbedding && WellFormedInput(inputs)
      requires states.Some? ==>
                 states.value.forward != states.value.backward &&
                 numLayers <= states.value.forward.Length && numLayers <= states.value.backward.Length
      modifies if states.Some? then {states.value.forward, states.value.backward} else {}
      ensures states.Some? ==> sF == states.value.forward && sB == states.value.backward
      ensures states.None? ==> fresh(sF) && fresh(sB)
      ensures var initF := if states.Some? then old(states.value.forward[..]) else BeginStates(Fwd, inputs.batchSize);
              numLayers <= |initF| &&
              ForwardStack(step, numLayers, ForwardStream(inputs), initF) == StackRun(outF, sF[..])
      ensures var initB := if states.Some? then old(states.value.backward[..]) else BeginStates(Bwd, inputs.batchSize);
              numLayers <= |initB| &&
              BackwardStack(step, numLayers, BackwardStream(inputs), initB) == StackRun(outB, sB[..])
    {
      if states.None? {
        sF, sB := BeginState(inputs.batchSize);
      } else {
        sF, sB := states.value.forward, states.value.backward;
      }
      outF, outB := RunLayers(ForwardStream(inputs), BackwardStream(inputs), sF, sB);
    }

    /** The nested loops of forward: for each layer, its forward chain and then its backward chain. */
    method RunLayers(xsF: seq<V>, xsB: seq<V>, sF: array<S>, sB: array<S>) returns (outF: seq<seq<V>>, outB: seq<seq<V>>)
      requires sF != sB && numLayers <= sF.Length && numLayers <= sB.Length
      modifies sF, sB
      ensures ForwardStack(step, numLayers, xsF, old(sF[..])) == StackRun(outF, sF[..])
      ensures BackwardStack(step, numLayers, xsB, old(sB[..])) == StackRun(outB, sB[..])
    {
      outF, outB := [], [];
      var j := 0;
      while j < numLayers
        invariant 0 <= j <= numLayers
        invariant ForwardStack(step, j, xsF, old(sF[..])) == StackRun(outF, sF[..])
        invariant BackwardStack(step, j, xsB, old(sB[..])) == StackRun(outB, sB[..])
      {
        var rowF := ForwardLayer(j, LayerInput(xsF, outF, j), sF);
        outF := outF + [rowF];
        var rowB := BackwardLayer(j, LayerInput(xsB, outB, j), sB);
        outB := outB + [rowB];
        j := j + 1;
      }
    }

    /** The forward chain of layer j over steps 0 .. n-1, appending each output and updating states[j] in place. */
    method ForwardLayer(j: nat, input: seq<V>, states: array<S>) returns (row: seq<V>)
      requires j < states.Length
      modifies states
      ensures row == RunForward(step, j, input, old(states[j])).0
      ensures states[..] == old(states[..])[j := RunForward(step, j, input, old(states[j])).1]
    {
      var n := |input|;
      row := [];
      var i := 0;
      while i < n
        invariant 0 <= i <= n
        invariant RunForward(step, j, input[..i], old(states[j])) == (row, states[j])
        invariant states[..] == old(states[..])[j := states[j]]
      {
        var r := step(j, Fwd, input[i], states[j]);
        assert input[..i + 1][..i] == input[..i];
        states[j] := r.1;
        row := row + [r.0];
        i := i + 1;
      }
      assert input[..n] == input;
    }

    /**
     * The backward chain of layer j over steps n-1 down to 0: the row is
     * pre-filled with None and slot i is assigned at step i; states[j] is
     * updated in place.
     */
    method BackwardLayer(j: nat, input: seq<V>, states: array<S>) returns (row: seq<V>)
      requires j < states.Length
      modifies states
      ensures row == RunBackward(step, j, input, old(states[j])).0
      ensures states[..] == old(states[..])[j := RunBackward(step, j, input, old(states[j])).1]
    {
      var n := |input|;
      var slots: seq<Option<V>> := seq(n, _ => None);
      var i := n;
      assert input[n..] == [];
      while i > 0
        invariant 0 <= i <= n && |slots| == n
        invariant forall k :: 0 <= k < i ==> slots[k].None?
        invariant forall k :: i <= k < n ==> slots[k] == Some(RunBackward(step, j, input[i..], old(states[j])).0[k - i])
        invariant RunBackward(step, j, input[i..], old(states[j])).1 == states[j]
        invariant states[..] == old(states[..])[j := states[j]]
      {
        i := i - 1;
        assert input[i..][1..] == input[i + 1..];
        var r := step(j, Bwd, input[i], states[j]);
        states[j] := r.1;
        slots := slots[i := Some(r.0)];
      }
      assert input[0..] == input;
      row := Stacked(slots);
    }
  }
}
