/**
 * Construction of the recurrent layer stacks: the cell chosen for each mode,
 * residual wrapping, dropout stages between layers (_get_rnn_cell), the
 * per-layer configuration of the bidirectional encoder (ElmoLSTM.__init__)
 * and the tied-weights check of the language model (ElmoBiLM.__init__).
 */
module StackBuilder {
  import opened Wrappers

  /** The recurrent modes that select a cell. */
  datatype Mode = RnnRelu | RnnTanh | Lstm | Gru | Lstmp

  /** A size argument that may be None (proj_size is None unless given). */
  type Size = Option<nat>

  datatype Activation = Relu | Tanh

  /** The cell constructed for one layer, with the arguments it receives. */
  datatype CellKind =
    | RnnCell(hiddenSize: nat, activation: Activation, inputSize: Size)
    | LstmCell(hiddenSize: nat, inputSize: Size)
    | GruCell(hiddenSize: nat, inputSize: Size)
    | LstmpCellWithClip(hiddenSize: nat, projectionSize: Size, cellClip: Option<real>,
                        projectionClip: Option<real>, inputSize: Size)

  /** One element of a sequential cell chain: a (possibly residual) cell or a dropout stage. */
  datatype Stage = Cell(kind: CellKind, residual: bool) | DropoutStage(rate: real)

  datatype BuildError = UnknownMode(name: string) | TieWeightsSizeMismatch(embedSize: nat, hiddenSize: nat)

  /** The mode names the builder recognises. */
  function ParseMode(name: string): (m: Option<Mode>)
    ensures m.None? <==> name !in {"rnn_relu", "rnn_tanh", "lstm", "gru", "lstmp"}
    ensures m == Some(Lstmp) <==> name == "lstmp"
  {
    if name == "rnn_relu" then Some(RnnRelu)
    else if name == "rnn_tanh" then Some(RnnTanh)
    else if name == "lstm" then Some(Lstm)
    else if name == "gru" then Some(Gru)
    else if name == "lstmp" then Some(Lstmp)
    else None
  }

  /**
   * The cell built for a mode: the constructor the mode names, receiving the
   * hidden size and input size, and for lstmp the projection size and both
   * clip bounds.
   */
  function CellFor(mode: Mode, inputSize: Size, hiddenSize: nat, projSize: Size,
                   cellClip: Option<real>, projClip: Option<real>): (c: CellKind)
    ensures c.hiddenSize == hiddenSize && c.inputSize == inputSize
    ensures c.RnnCell? <==> mode == RnnRelu || mode == RnnTanh
    ensures c.RnnCell? ==> (c.activation == Relu <==> mode == RnnRelu)
    ensures c.LstmCell? <==> mode == Lstm
    ensures c.GruCell? <==> mode == Gru
    ensures c.LstmpCellWithClip? <==> mode == Lstmp
    ensures c.LstmpCellWithClip? ==> c.projectionSize == projSize && c.cellClip == cellClip && c.projectionClip == projClip
  {
    match mode
    case RnnRelu => RnnCell(hiddenSize, Relu, inputSize)
    case RnnTanh => RnnCell(hiddenSize, Tanh, inputSize)
    case Lstm => LstmCell(hiddenSize, inputSize)
    case Gru => GruCell(hiddenSize, inputSize)
    case Lstmp => LstmpCellWithClip(hiddenSize, projSize, cellClip, projClip, inputSize)
  }

  /** The stages one loop iteration adds: the cell, then a dropout stage when the rate is non-zero. */
  function LayerBlock(cell: CellKind, skipConnection: bool, dropout: real): seq<Stage>
  {
    [Cell(cell, skipConnection)] + (if dropout != 0.0 then [DropoutStage(dropout)] else [])
  }

  function Repeat(block: seq<Stage>, n: nat): seq<Stage>
  {
    if n == 0 then [] else Repeat(block, n - 1) + block
  }

  /** The number of cells (as opposed to dropout stages) in a chain. */
  function CellCount(stages: seq<Stage>): nat
  {
    if stages == [] then 0
    else CellCount(stages[..|stages| - 1]) + (if stages[|stages| - 1].Cell? then 1 else 0)
  }

  /**
   * _get_rnn_cell: a chain of numLayers layers. An unrecognised mode fails
   * as soon as the first layer is built; with no layers nothing is built.
   */
  function GetRnnCell(mode: string, numLayers: int, inputSize: Size, hiddenSize: nat, dropout: real,
                      skipConnection: bool, projSize: Size, cellClip: Option<real>,
                      projClip: Option<real>): (r: Result<seq<Stage>, BuildError>)
    ensures r.Failure? <==> numLayers > 0 && ParseMode(mode).None?
  {
    if numLayers <= 0 then Success([])
    else match ParseMode(mode)
      case None => Failure(UnknownMode(mode))
      case Some(m) =>
        Success(Repeat(LayerBlock(CellFor(m, inputSize, hiddenSize, projSize, cellClip, projClip),
                                  skipConnection, dropout), numLayers))
  }

  /**
   * What a chain built from one cell kind looks like: every cell is that
   * cell, residual exactly when skip connections are on; a dropout stage
   * with the configured rate follows every cell when the rate is non-zero,
   * and there is no dropout stage otherwise.
   */
  ghost predicate ChainOf(stages: seq<Stage>, cell: CellKind, skipConnection: bool, dropout: real)
  {
    (forall k :: 0 <= k < |stages| && stages[k].Cell? ==> stages[k] == Cell(cell, skipConnection)) &&
    (forall k :: 0 <= k < |stages| && stages[k].DropoutStage? ==>
       dropout != 0.0 && stages[k].rate == dropout && 0 < k && stages[k - 1].Cell?) &&
    (forall k :: 0 <= k < |stages| && stages[k].Cell? && dropout != 0.0 ==>
       k + 1 < |stages| && stages[k + 1].DropoutStage?) &&
    (stages != [] ==> stages[0].Cell?)
  }

  /** Appending one loop iteration's stages to a chain of one cell kind keeps it such a chain. */
  lemma ChainExtends(prev: seq<Stage>, cell: CellKind, skipConnection: bool, dropout: real)
    requires ChainOf(prev, cell, skipConnection, dropout)
    ensures ChainOf(prev + LayerBlock(cell, skipConnection, dropout), cell, skipConnection, dropout)
  {
    var all := prev + LayerBlock(cell, skipConnection, dropout);
    assert forall k :: |prev| <= k < |all| ==> all[k] == LayerBlock(cell, skipConnection, dropout)[k - |prev|];
    assert forall k :: 0 <= k < |prev| ==> all[k] == prev[k];
  }

  lemma {:induction false} RepeatIsChain(cell: CellKind, skipConnection: bool, dropout: real, n: nat)
    ensures ChainOf(Repeat(LayerBlock(cell, skipConnection, dropout), n), cell, skipConnection, dropout)
  {
    if n > 0 {
      RepeatIsChain(cell, skipConnection, dropout, n - 1);
      ChainExtends(Repeat(LayerBlock(cell, skipConnection, dropout), n - 1), cell, skipConnection, dropout);
    }
  }

  /** n loop iterations add exactly n cells. */
  lemma {:induction false} RepeatCellCount(cell: CellKind, skipConnection: bool, dropout: real, n: nat)
    ensures CellCount(Repeat(LayerBlock(cell, skipConnection, dropout), n)) == n
  {
    if n > 0 {
      RepeatCellCount(cell, skipConnection, dropout, n - 1);
      var prev := Repeat(LayerBlock(cell, skipConnection, dropout), n - 1);
      var all := prev + LayerBlock(cell, skipConnection, dropout);
      if dropout != 0.0 {
        assert all[..|all| - 1] == prev + [Cell(cell, skipConnection)];
        assert (prev + [Cell(cell, skipConnection)])[..|prev|] == prev;
      } else {
        assert all[..|all| - 1] == prev;
      }
    }
  }

  /**
   * _get_rnn_cell emits exactly numLayers cells of the kind the mode names,
   * each residual iff skip connections are on and each followed by a
   * dropout stage iff the dropout rate is non-zero.
   */
  lemma GetRnnCellShape(mode: string, numLayers: int, inputSize: Size, hiddenSize: nat, dropout: real,
                        skipConnection: bool, projSize: Size, cellClip: Option<real>, projClip: Option<real>)
    requires ParseMode(mode).Some?
    ensures var r := GetRnnCell(mode, numLayers, inputSize, hiddenSize, dropout, skipConnection, projSize, cellClip, projClip);
            r.Success? &&
            CellCount(r.value) == (if numLayers > 0 then numLayers else 0) &&
            ChainOf(r.value, CellFor(ParseMode(mode).value, inputSize, hiddenSize, projSize, cellClip, projClip),
                    skipConnection, dropout)
  {
    if numLayers > 0 {
      RepeatIsChain(CellFor(ParseMode(mode).value, inputSize, hiddenSize, projSize, cellClip, projClip),
                    skipConnection, dropout, numLayers);
      RepeatCellCount(CellFor(ParseMode(mode).value, inputSize, hiddenSize, projSize, cellClip, projClip),
                      skipConnection, dropout, numLayers);
    }
  }

  // ---------------------------------------------------------------------------
  // The encoder's layers

  /** The configuration arguments of the bidirectional encoder. */
  datatype EncoderConfig = EncoderConfig(
    mode: string,
    numLayers: int,
    inputSize: nat,
    hiddenSize: nat,
    dropout: real,
    skipConnection: bool,
    projSize: Size,
    cellClip: Option<real>,
    projClip: Option<real>)

  /** The forward and the backward chain of one layer. */
  datatype LayerPair = LayerPair(forward: seq<Stage>, backward: seq<Stage>)

  /** The input size of layer l: the embedding size first, then the projection size (lstmp) or the hidden size. */
  function LayerInputSize(cfg: EncoderConfig, l: nat): Size
  {
    if l == 0 then Some(cfg.inputSize)
    else if cfg.mode == "lstmp" then cfg.projSize
    else Some(cfg.hiddenSize)
  }

  /** The single-layer chain of layer l: no dropout after the last layer, no skip connection on the first. */
  function LayerChain(cfg: EncoderConfig, l: nat): (r: Result<seq<Stage>, BuildError>)
    ensures r.Failure? <==> ParseMode(cfg.mode).None?
  {
    GetRnnCell(cfg.mode, 1, LayerInputSize(cfg, l), cfg.hiddenSize,
               if l == cfg.numLayers - 1 then 0.0 else cfg.dropout,
               if l == 0 then false else cfg.skipConnection,
               cfg.projSize, cfg.cellClip, cfg.projClip)
  }

  /** ElmoLSTM.__init__: the forward and backward chains for every layer, or the first build error. */
  function EncoderLayers(cfg: EncoderConfig): (r: Result<seq<LayerPair>, BuildError>)
    ensures r.Failure? <==> cfg.numLayers > 0 && ParseMode(cfg.mode).None?
    ensures r.Success? ==> |r.value| == (if cfg.numLayers > 0 then cfg.numLayers else 0)
  {
    if cfg.numLayers <= 0 then Success([])
    else if ParseMode(cfg.mode).None? then Failure(UnknownMode(cfg.mode))
    else Success(seq(cfg.numLayers, l requires 0 <= l < cfg.numLayers =>
                   LayerPair(LayerChain(cfg, l).value, LayerChain(cfg, l).value)))
  }

  /**
   * Every layer of the encoder, in both directions, holds one cell of the
   * configured mode with that layer's input size; the forward and backward
   * chains are identical; layer 0 is never residual and later layers are
   * residual iff skip connections are on; a dropout stage follows the cell
   * iff the rate is non-zero and the layer is not the last.
   */
  lemma EncoderLayersShape(cfg: EncoderConfig, l: nat)
    requires EncoderLayers(cfg).Success? && l < |EncoderLayers(cfg).value|
    ensures var p := EncoderLayers(cfg).value[l];
            var m := ParseMode(cfg.mode).value;
            p.forward == p.backward &&
            |p.forward| == (if l != cfg.numLayers - 1 && cfg.dropout != 0.0 then 2 else 1) &&
            p.forward[0] == Cell(CellFor(m, LayerInputSize(cfg, l), cfg.hiddenSize, cfg.projSize, cfg.cellClip, cfg.projClip),
                                 l != 0 && cfg.skipConnection) &&
            (|p.forward| == 2 ==> p.forward[1] == DropoutStage(cfg.dropout))
  {
    var m := ParseMode(cfg.mode).value;
    var cell := CellFor(m, LayerInputSize(cfg, l), cfg.hiddenSize, cfg.projSize, cfg.cellClip, cfg.projClip);
    var rate := if l == cfg.numLayers - 1 then 0.0 else cfg.dropout;
    var skip := if l == 0 then false else cfg.skipConnection;
    assert LayerChain(cfg, l).value == Repeat(LayerBlock(cell, skip, rate), 1);
    assert Repeat(LayerBlock(cell, skip, rate), 0) == [];
  }

  /** The width of what a cell emits: the projection for the projected LSTM, the hidden state otherwise. */
  function OutputSize(c: CellKind): Size
  {
    match c
    case LstmpCellWithClip(_, p, _, _, _) => p
    case RnnCell(h, _, _) => Some(h)
    case LstmCell(h, _) => Some(h)
    case GruCell(h, _) => Some(h)
  }

  /**
   * Adjacent layers agree on widths: the cell of layer l reads exactly what
   * the cell of layer l - 1 emits, in both directions.
   */
  lemma LayerWidthsChain(cfg: EncoderConfig, l: nat)
    requires EncoderLayers(cfg).Success? && 0 < l < |EncoderLayers(cfg).value|
    ensures var layers := EncoderLayers(cfg).value;
            layers[l].forward[0].Cell? && layers[l - 1].forward[0].Cell? &&
            layers[l].forward[0].kind.inputSize == OutputSize(layers[l - 1].forward[0].kind) &&
            layers[l].backward[0].kind.inputSize == OutputSize(layers[l - 1].backward[0].kind)
  {
    EncoderLayersShape(cfg, l);
    EncoderLayersShape(cfg, l - 1);
  }

  /** The last layer of the encoder never has a dropout stage, in either direction. */
  lemma LastLayerHasNoDropout(cfg: EncoderConfig)
    requires EncoderLayers(cfg).Success? && cfg.numLayers > 0
    ensures var p := EncoderLayers(cfg).value[cfg.numLayers - 1];
            forall k :: 0 <= k < |p.forward| ==> !p.forward[k].DropoutStage? && !p.backward[k].DropoutStage?
  {
    EncoderLayersShape(cfg, cfg.numLayers - 1);
  }

  // ---------------------------------------------------------------------------
  // The language model's output layer

  /** The decoder: a dense layer over the vocabulary, sharing the embedding's parameters when tied. */
  datatype Decoder = Decoder(vocabSize: nat, sharesEmbedding: bool)

  /** ElmoBiLM.__init__: tying weights needs the embedding size to equal the hidden size. */
  function BuildDecoder(vocabSize: nat, embedSize: nat, hiddenSize: nat, tieWeights: bool): (r: Result<Decoder, BuildError>)
    ensures r.Failure? <==> tieWeights && embedSize != hiddenSize
    ensures r.Success? ==> r.value.sharesEmbedding == tieWeights && r.value.vocabSize == vocabSize
  {
    if tieWeights && embedSize != hiddenSize then Failure(TieWeightsSizeMismatch(embedSize, hiddenSize))
    else Success(Decoder(vocabSize, tieWeights))
  }
}
