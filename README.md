# ELMo bidirectional language model scripts: a Dafny model of the control logic

This project models the discrete control and data-movement logic of the
gluon-nlp ELMo-biLM scripts: the code around the MXNet tensor calls. It
covers the following:

- **The projected LSTM cell with clipping** (`LSTMPCellWithClip.hybrid_forward`).
  It covers the gate slicing order, the cell update and the in-place hard
  clips of the cell state and the projection. The output is the same buffer
  as the first state component. A second reading gives the step as a
  hybridized graph computes it, in which the clips have no effect.
- **The layer-stack builders.** `_get_rnn_cell` builds the chain of cells
  with residual wrapping and dropout stages. `ElmoLSTM.__init__` sets up each
  layer: its input size, the last-layer dropout and the first-layer skip
  connection. The tied-weights check of `ElmoBiLM.__init__` is included.
- **The bidirectional encoder** (`ElmoLSTM.forward`). The forward chain of
  each layer runs over increasing time steps and the backward chain over
  decreasing ones. The two per-layer state lists are updated in place.
- **Truncated-BPTT batching**: `get_batch`, the batch loops of `train` and
  `evaluate`, and `evaluate`'s token count.
- **`detach`**, **`get_ppl`**, and the configuration checks: batch size
  against device count, and the ELMo script's alpha / weight-dropout check.
- **The end-of-epoch schedule**: print the validation perplexity, keep the
  best validation loss, save and print the test perplexity on improvement,
  and decay the learning rate after `lr_update_interval` non-improving
  epochs. The overflow of `math.exp` on either perplexity is one of its
  exceptions.

The tensor numerics are abstracted, and each abstraction is a parameter of
the model:

- An encoder chain is an uninterpreted step function
  `(layer, direction, input, state) -> (output, state)`.
- In the cell, sigmoid and tanh are uninterpreted functions over reals. The
  affine maps are matrix-vector products over reals. A vector is one batch
  row.
- One device's forward/backward pass in `train` maps the batch number, device
  index, data, target and detached state to a new state.
- The model call in `evaluate` returns two summed losses and a new state.
- The validation and test losses of each epoch reach the schedule as Python
  floats (number, infinity or NaN).

Both scripts share `get_batch`, `detach` and the schedule:

- `scripts/language_model/ELMo-biLM/word_language_model.py`
- `scripts/language_model/bi_language_model.py`

Their `evaluate` functions count tokens differently: the ELMo script adds
`2 * L.size`, the other adds the sizes of both losses. The model keeps both
counts (`Training.Script`) and proves they agree.

Files (one module each):

- `wrappers.dfy`: `Option` and `Result`.
- `py_float.dfy`: module `PyFloat`, Python floats, their `<` and the
  overflow of `math.exp`.
- `lstmp_cell.dfy`: module `LstmpCell`.
- `stack_builder.dfy`: module `StackBuilder`.
- `encoder.dfy`: module `Encoder`, with class `ElmoLSTM`.
- `batching.dfy`: module `Batching`.
- `detach.dfy`: module `HiddenState`.
- `training.dfy`: module `Training`.
- `lr_schedule.dfy`: module `LrSchedule`.

Where the intended behaviour and the code differ, the model follows the code:

- The non-improving branch tests `update_lr_epoch % interval == 0`. The
  counter therefore stays in `[0, |interval| - 1]`, not `[0, interval - 1]`:
  a negative interval decays after `|interval|` epochs. An interval of 0
  raises a division by zero on the first non-improving epoch.
- The counter is bound only in the improving branch. The model therefore
  also keeps the as-written start state (see Findings).

## Model

| member | source | states |
|---|---|---|
| LstmpCell.Clamp | scripts/language_model/ELMo-biLM/LSTMPCellWithClip.py:86-87 | the clamped value lies in [-b, b] and is either the input or one of the two bounds |
| LstmpCell.Clipped | scripts/language_model/ELMo-biLM/LSTMPCellWithClip.py:86-87 | element-wise clip keeps the length of the vector |
| LstmpCell.ClipBy | scripts/language_model/ELMo-biLM/LSTMPCellWithClip.py:86-93 | clipping with an optional bound keeps the length; with no bound the vector passes through |
| LstmpCell.ClippedWithinBound | scripts/language_model/ELMo-biLM/LSTMPCellWithClip.py:86-87 | every element of a clipped vector lies in [-b, b] |
| LstmpCell.ClippedKeepsInside | scripts/language_model/ELMo-biLM/LSTMPCellWithClip.py:86-93 | a vector already inside [-b, b] is unchanged by clipping |
| LstmpCell.ClipByIdempotent | scripts/language_model/ELMo-biLM/LSTMPCellWithClip.py:86-93 | clipping twice with the same optional bound equals clipping once |
| LstmpCell.ClipInPlace | scripts/language_model/ELMo-biLM/LSTMPCellWithClip.py:86-87 | clipping a buffer in place (out = the same buffer) leaves it holding the clipped old contents |
| LstmpCell.SliceChannel4 | scripts/language_model/ELMo-biLM/LSTMPCellWithClip.py:79 | a 4h-wide vector is split into four consecutive h-wide slices, slice q element k being element q*h + k |
| LstmpCell.Preactivation | scripts/language_model/ELMo-biLM/LSTMPCellWithClip.py:74-78 | i2h + h2h has width 4 * hidden_size |
| LstmpCell.Gates | scripts/language_model/ELMo-biLM/LSTMPCellWithClip.py:79-83 | each of the four gates has width hidden_size |
| LstmpCell.UnclippedCell | scripts/language_model/ELMo-biLM/LSTMPCellWithClip.py:84-85 | the pre-clip cell state has the width of the previous cell state |
| LstmpCell.HiddenOf | scripts/language_model/ELMo-biLM/LSTMPCellWithClip.py:88-89 | the hidden vector o * tanh(c) has the width of the cell state |
| LstmpCell.Step | scripts/language_model/ELMo-biLM/LSTMPCellWithClip.py:71-95 | the new cell state has hidden_size elements, the projection projection_size, and the output is the projection itself |
| LstmpCell.GateOrder | scripts/language_model/ELMo-biLM/LSTMPCellWithClip.py:79-89 | slices are read as i, f, g, o: cell element k is sigmoid(pre[h+k]) * c[k] + sigmoid(pre[k]) * tanh(pre[2h+k]) and hidden element k is sigmoid(pre[3h+k]) * tanh(c'[k]) |
| LstmpCell.CellStateWithinClip | scripts/language_model/ELMo-biLM/LSTMPCellWithClip.py:86-87 | with a cell clip b, every element of the returned cell state lies in [-b, b] |
| LstmpCell.ProjectionWithinClip | scripts/language_model/ELMo-biLM/LSTMPCellWithClip.py:92-93 | with a projection clip b, every element of the output (and state[0]) lies in [-b, b] |
| LstmpCell.UnclippedStepIsPlainLstmp | scripts/language_model/ELMo-biLM/LSTMPCellWithClip.py:84-91 | without bounds the cell state is exactly f * c + i * g and the output exactly W_hr (o * tanh(c')) |
| LstmpCell.TracedStep | scripts/language_model/ELMo-biLM/LSTMPCellWithClip.py:84-95 | the step as a hybridized graph computes it: output is the returned projection, with one entry per projection unit and a cell state per hidden unit |
| LstmpCell.TracedStepIgnoresClips | scripts/language_model/ELMo-biLM/LSTMPCellWithClip.py:86-87 | whatever the clip bounds, the traced step equals the step of the same cell with both bounds dropped |
| LstmpCell.TracedStepExceedsCellClip | scripts/language_model/ELMo-biLM/LSTMPCellWithClip.py:86-87 | for any activations with sigmoid(0) = 0.5 and tanh(0) = 0, a cell with cell_clip 1.0 whose traced cell state is 2.5, while the clipped step gives 1.0 |
| LstmpCell.CellStep | scripts/language_model/ELMo-biLM/LSTMPCellWithClip.py:71-95 | the step returns fresh buffers [next_r, next_c] holding the specified step's values, the output being the same buffer as state[0] and distinct from the cell-state buffer |
| StackBuilder.ParseMode | scripts/language_model/ELMo-biLM/word_language_model.py:127-136 | exactly the five mode names select a cell, and only "lstmp" selects the clipped projected LSTM |
| StackBuilder.CellFor | scripts/language_model/ELMo-biLM/word_language_model.py:127-136 | the cell is the constructor the mode names (relu or tanh for the two RNN modes), given the hidden and input sizes, and for lstmp the projection size and both clips |
| StackBuilder.GetRnnCell | scripts/language_model/ELMo-biLM/word_language_model.py:122-145 | the builder fails exactly when at least one layer is requested with an unknown mode |
| StackBuilder.ChainExtends | scripts/language_model/ELMo-biLM/word_language_model.py:137-144 | one more loop iteration (cell, then dropout when the rate is non-zero) to a chain of one cell kind gives again a chain of that cell kind |
| StackBuilder.RepeatIsChain | scripts/language_model/ELMo-biLM/word_language_model.py:126-144 | n loop iterations give cells of one kind, residual iff skip is on, each followed by a dropout stage of the given rate iff the rate is non-zero |
| StackBuilder.RepeatCellCount | scripts/language_model/ELMo-biLM/word_language_model.py:126-144 | n loop iterations add exactly n cells |
| StackBuilder.GetRnnCellShape | scripts/language_model/ELMo-biLM/word_language_model.py:122-145 | for a known mode the chain has num_layers cells (none for num_layers <= 0) of the mode's kind, residual iff skip is on, each followed by dropout iff dropout != 0 |
| StackBuilder.LayerInputSize | scripts/language_model/ELMo-biLM/word_language_model.py:153-169 | the input width of layer l: the embedding size for layer 0, then proj_size for lstmp and hidden_size otherwise (no contract; its meaning is stated by StackBuilder.LayerWidthsChain) |
| StackBuilder.LayerChain | scripts/language_model/ELMo-biLM/word_language_model.py:155-161 | one layer's single-cell chain fails exactly when the mode is unknown; dropout 0 on the last layer and no skip connection on the first |
| StackBuilder.EncoderLayers | scripts/language_model/ELMo-biLM/word_language_model.py:155-169 | the encoder fails iff it has layers and an unknown mode, and otherwise holds one forward/backward pair per layer |
| StackBuilder.EncoderLayersShape | scripts/language_model/ELMo-biLM/word_language_model.py:158-169 | per layer: forward and backward chains identical; layer 0 reads input_size and later layers proj_size (lstmp) or hidden_size; residual iff not layer 0 and skip is on; dropout iff rate != 0 and not the last layer |
| StackBuilder.LayerWidthsChain | scripts/language_model/ELMo-biLM/word_language_model.py:155-169 | in both directions the cell of layer l > 0 reads exactly the width the cell of layer l-1 emits (its projection for lstmp, its hidden state otherwise) |
| StackBuilder.LastLayerHasNoDropout | scripts/language_model/ELMo-biLM/word_language_model.py:159-164 | the last layer has no dropout stage in either direction |
| StackBuilder.BuildDecoder | scripts/language_model/ELMo-biLM/word_language_model.py:233-237 | construction fails iff weights are tied with embed_size != hidden_size; otherwise the decoder shares the embedding iff tied |
| Encoder.ForwardStream | scripts/language_model/ELMo-biLM/word_language_model.py:190 | layer 0 of the forward direction reads one input per time step (the character input or inputs[0]) |
| Encoder.BackwardStream | scripts/language_model/ELMo-biLM/word_language_model.py:199 | layer 0 of the backward direction reads one input per time step (the character input or inputs[1]) |
| Encoder.RunForward | scripts/language_model/ELMo-biLM/word_language_model.py:188-194 | the forward chain produces exactly one output per time step |
| Encoder.RunBackward | scripts/language_model/ELMo-biLM/word_language_model.py:196-203 | the backward chain produces exactly one output per time step, output k belonging to step k |
| Encoder.ForwardStack | scripts/language_model/ELMo-biLM/word_language_model.py:186-194 | n forward layers produce n rows of seq_len outputs each and leave the states of higher layers untouched |
| Encoder.BackwardStack | scripts/language_model/ELMo-biLM/word_language_model.py:186-203 | n backward layers produce n rows of seq_len outputs each and leave the states of higher layers untouched |
| Encoder.RunForwardPrefix | scripts/language_model/ELMo-biLM/word_language_model.py:188-194 | the first k forward outputs are those of the chain run on the first k inputs |
| Encoder.RunBackwardSuffix | scripts/language_model/ELMo-biLM/word_language_model.py:197-203 | the backward outputs from step k on are those of the chain run on the inputs from step k on |
| Encoder.ForwardStackPrefix | scripts/language_model/ELMo-biLM/word_language_model.py:186-194 | truncating the stream after k steps truncates every layer's forward outputs after k steps |
| Encoder.BackwardStackSuffix | scripts/language_model/ELMo-biLM/word_language_model.py:186-203 | dropping the first k steps of the stream drops the first k backward outputs of every layer |
| Encoder.ForwardCausal | scripts/language_model/ELMo-biLM/word_language_model.py:188-194 | the forward output of any layer at step i depends only on steps 0..i of the forward stream |
| Encoder.BackwardCausal | scripts/language_model/ELMo-biLM/word_language_model.py:197-203 | the backward output of any layer at step i depends only on steps i..seq_len-1 of the backward stream |
| Encoder.DirectionsIndependent | scripts/language_model/ELMo-biLM/word_language_model.py:186-203 | with word inputs, the forward stack the encoder returns is the same for any backward steps, and the backward stack is the same for any forward steps of that length and any backward steps past seq_len |
| Encoder.ElmoLSTM.constructor | scripts/language_model/ELMo-biLM/word_language_model.py:148-169 | the encoder holds the layer pairs its configuration builds, one per layer |
| Encoder.ElmoLSTM.BeginStates | scripts/language_model/ELMo-biLM/word_language_model.py:171-173 | one zero state per layer and direction |
| Encoder.ElmoLSTM.BeginStatesAgree | scripts/language_model/ELMo-biLM/word_language_model.py:158-173 | both directions start from the same zero states, their chains being built alike |
| Encoder.ElmoLSTM.BeginState | scripts/language_model/ELMo-biLM/word_language_model.py:171-173 | begin_state returns two fresh, distinct state lists holding the zero states |
| Encoder.ElmoLSTM.Forward | scripts/language_model/ELMo-biLM/word_language_model.py:175-209 | without states, zero states for the input's batch size are used; supplied state lists are advanced in place and returned; each direction's outputs and states are its stack run over its own stream |
| Encoder.ElmoLSTM.RunLayers | scripts/language_model/ELMo-biLM/word_language_model.py:186-203 | layer by layer, first the forward then the backward chain, the results being the specification stacks |
| Encoder.ElmoLSTM.ForwardLayer | scripts/language_model/ELMo-biLM/word_language_model.py:187-194 | appending outputs over steps 0..n-1 yields the forward run, with states[j] and nothing else advanced |
| Encoder.ElmoLSTM.BackwardLayer | scripts/language_model/ELMo-biLM/word_language_model.py:196-203 | assigning slots over steps n-1..0 yields the backward run, with states[j] and nothing else advanced |
| Batching.SliceIndex | scripts/language_model/ELMo-biLM/word_language_model.py:385-386 | a slice bound is normalised into [0, len], in-range bounds unchanged |
| Batching.PySlice | scripts/language_model/ELMo-biLM/word_language_model.py:385-386 | with in-range bounds a Python slice is the plain subsequence |
| Batching.GetBatch | scripts/language_model/ELMo-biLM/word_language_model.py:383-387 | for i inside the source (i < len-1), data is the non-empty window source[i..i+L] and target the same window one row later, L being min(window, len-1-i) |
| Batching.GetBatchLengths | scripts/language_model/ELMo-biLM/word_language_model.py:383-387 | data and target both hold min(window, len-1-i) rows (none past the end) |
| Batching.GetBatchShape | scripts/language_model/ELMo-biLM/word_language_model.py:383-387 | data and target have equal length min(window, len-1-i), data[k] == source[i+k] and target[k] == source[i+1+k] |
| Batching.TargetIsShiftedData | scripts/language_model/bi_language_model.py:178-182 | the target is the data shifted by one position: target[k] == data[k+1] |
| HiddenState.Detach | scripts/language_model/ELMo-biLM/word_language_model.py:389-394 | leaves stay leaves, and a list or tuple becomes a list of the same length |
| HiddenState.DetachKeepsShape | scripts/language_model/ELMo-biLM/word_language_model.py:389-394 | detach preserves the whole nesting structure |
| HiddenState.DetachKeepsValues | scripts/language_model/bi_language_model.py:184-189 | detach replaces only leaves, each by a tensor with the same value, so the leaf values in order are unchanged |
| HiddenState.DetachSevers | scripts/language_model/bi_language_model.py:184-189 | after detach no leaf is attached to the graph and every container is a list |
| HiddenState.DetachIdempotent | scripts/language_model/bi_language_model.py:184-189 | detaching twice equals detaching once |
| Training.RowsPerDevice | scripts/language_model/bi_language_model.py:105-106 | the configuration is accepted iff batch_size is a multiple of the device count, and each device then receives batch_size / devices rows |
| Training.CheckElmoConfig | scripts/language_model/ELMo-biLM/word_language_model.py:317-321 | accepted iff the batch divides evenly and (weight_dropout > 0 or both weight_dropout and alpha are 0); the divisibility check comes first |
| Training.DeviceRound | scripts/language_model/bi_language_model.py:281-295 | one state per device before and after a batch |
| Training.TrainBatch | scripts/language_model/bi_language_model.py:281-295 | after detaching the list, device j replaces state j with what its pass returns on its detached state |
| Training.TrainFrom | scripts/language_model/bi_language_model.py:274-313 | the epoch from position i keeps one state per device |
| Training.TrainEpoch | scripts/language_model/bi_language_model.py:274-313 | the while loop advancing i by bptt computes the specified states and batch count of the epoch |
| Training.TrainFromCount | scripts/language_model/bi_language_model.py:275-312 | from position i the epoch runs until the first start at or beyond len-2 |
| Training.TrainBatchCount | scripts/language_model/bi_language_model.py:274-313 | no batches when len <= 2; otherwise the count is the least multiple of bptt reaching len-2 |
| Training.TrainBatchRows | scripts/language_model/bi_language_model.py:275-278 | every training batch has between 1 and bptt rows and ends before the next starts |
| Training.TrainCoverage | scripts/language_model/bi_language_model.py:275-278 | the windows tile rows 0..end, where end is len-1, or len-2 when len-2 is a multiple of bptt |
| Training.TokensCounted | scripts/language_model/ELMo-biLM/word_language_model.py:437 | the ELMo script adds 2 * L.size, the other script the sizes of both losses (bi_language_model.py:220-225); with as many target rows as data rows both count 2 * width tokens per row |
| Training.EvalLoss | scripts/language_model/bi_language_model.py:211-224 | the summed losses of evaluate from row i on, window after window, the state detached after each model call (no contract; the specification Training.Evaluate is proved against) |
| Training.EvalTokens | scripts/language_model/bi_language_model.py:211-225 | the tokens evaluate counts from row i on (no contract; its closed form is stated by Training.EvalTokenCount) |
| Training.WindowRowsCover | scripts/language_model/bi_language_model.py:211-213 | the windows from i, each min(bptt, len-1-i) rows long, cover exactly the rows from i to len-2 |
| Training.EvalTokensPerRow | scripts/language_model/bi_language_model.py:211-225 | evaluate counts 2 * width tokens for every row its windows cover |
| Training.EvalTokenCount | scripts/language_model/bi_language_model.py:211-225 | whatever the script, evaluate counts 2 * width * (len-1-i) tokens from position i |
| Training.EvalTokensStep | scripts/language_model/bi_language_model.py:217-225 | one evaluated batch adds 2 * width tokens per row it holds |
| Training.MeanLoss | scripts/language_model/bi_language_model.py:226 | no value exactly when the token count is zero (the division by zero) |
| Training.AddBatch | scripts/language_model/bi_language_model.py:217-225 | one batch adds both losses to total_L and the script's token count to ntotal |
| Training.EvalBatch | scripts/language_model/bi_language_model.py:211-225 | one loop pass advances i by bptt and moves a batch's losses and tokens from what remains to what is accumulated |
| Training.EvalPastEnd | scripts/language_model/bi_language_model.py:211 | from a start at or past the last row no batch is evaluated: no loss and no token is added |
| Training.Evaluate | scripts/language_model/bi_language_model.py:191-226 | evaluate returns the loss sum over the token count of the specified windows, or fails when no token was counted |
| Training.EvaluateDefined | scripts/language_model/bi_language_model.py:211-226 | evaluate yields a loss iff the batch width is positive and the source has at least two rows |
| PyFloat.Less | scripts/language_model/ELMo-biLM/word_language_model.py:583 | Python's `<` on floats: false whenever NaN is involved, every number below infinity (no contract; stated by PyFloat.LessIsStrictOrder) |
| PyFloat.LessIsStrictOrder | scripts/language_model/ELMo-biLM/word_language_model.py:583 | `<` is irreflexive, asymmetric, transitive and total on non-NaN floats; NaN compares with nothing, and infinity, the first best_val, is above every number |
| PyFloat.ExpRaises | scripts/language_model/ELMo-biLM/word_language_model.py:581 | math.exp raises OverflowError exactly on a finite argument above MaxExpArgument, not on infinity or NaN (no contract; used by LrSchedule.EndOfEpoch and Training.GetPpl) |
| Training.GetPpl | scripts/language_model/ELMo-biLM/word_language_model.py:396-401 | infinity exactly when exp overflows, and otherwise exp of the loss |
| Training.GetPplMonotone | scripts/language_model/ELMo-biLM/word_language_model.py:396-401 | a larger loss never gives a smaller perplexity, overflow included |
| LrSchedule.EndOfEpoch | scripts/language_model/ELMo-biLM/word_language_model.py:580-595 | each exception iff its condition: exp(val_L) overflows; else on improvement exp(test_L) overflows; else the counter is unbound; else the interval is zero. On success: saves iff the loss improves, then best := loss, counter 0, lr unchanged; otherwise best unchanged; lr changes only by one decay, which resets the counter |
| LrSchedule.EpochUpdate | scripts/language_model/ELMo-biLM/word_language_model.py:580-595 | the end of an epoch on the loop variables returns the exception the specified step raises, or leaves the variables as that step's next schedule |
| LrSchedule.InitialAsWritten | scripts/language_model/ELMo-biLM/word_language_model.py:525 | the start state as written: best is infinity and the counter is unbound |
| LrSchedule.Initial | scripts/language_model/ELMo-biLM/word_language_model.py:525 | the corrected start state: best is infinity, counter 0, lr the initial rate, no decays |
| LrSchedule.FirstEpochUnbound | scripts/language_model/ELMo-biLM/word_language_model.py:589-590 | as written, a first epoch with a NaN or infinite validation loss, whatever the test loss, raises on the unbound counter |
| LrSchedule.InitialValid | scripts/language_model/ELMo-biLM/word_language_model.py:525 | the corrected start state satisfies the schedule invariant |
| LrSchedule.MultipleInRange | scripts/language_model/ELMo-biLM/word_language_model.py:591 | among 1..abs(interval), the test `% interval == 0` selects only abs(interval) |
| LrSchedule.EndOfEpochKeepsValid | scripts/language_model/ELMo-biLM/word_language_model.py:580-595 | from a valid schedule with a non-zero interval and perplexities that do not overflow: no failure; counter in [0, abs(interval)-1]; best never NaN; lr == lr0 * factor^decays |
| LrSchedule.NonImprovingEpoch | scripts/language_model/ELMo-biLM/word_language_model.py:589-595 | a non-improving epoch whose validation perplexity does not overflow increments the counter, or decays lr once and resets it when the interval completes |
| LrSchedule.Run | scripts/language_model/ELMo-biLM/word_language_model.py:527-595 | epochs in order, stopping at the first exception; every saved epoch index is an epoch of the run |
| LrSchedule.RunExtends | scripts/language_model/ELMo-biLM/word_language_model.py:528-595 | after a successful run over the first e epochs, epoch e applies the end-of-epoch step to its last state and records a save iff that step saved |
| LrSchedule.Train | scripts/language_model/ELMo-biLM/word_language_model.py:521-595 | the epoch loop with mutable best_val, counter and learning rate computes the specified run from the corrected start |
| LrSchedule.RunFailureStays | scripts/language_model/ELMo-biLM/word_language_model.py:589-591 | once an epoch raises, the run ends with that exception |
| LrSchedule.RunKeepsValid | scripts/language_model/bi_language_model.py:321-335 | from the corrected start with a non-zero interval, a run whose perplexities never overflow never fails and its state stays valid |
| LrSchedule.RunBestIsMinimum | scripts/language_model/bi_language_model.py:323-325 | after a run no validation loss seen, nor the starting best, is below best_val |
| LrSchedule.RunBestIsLastSaved | scripts/language_model/bi_language_model.py:323-327 | best_val is the loss of the last epoch saved, or the starting best when none was saved |
| LrSchedule.DecayAfterInterval | scripts/language_model/bi_language_model.py:329-335 | k consecutive non-improving epochs from counter 0, none with an overflowing validation perplexity: for k < abs(interval), lr unchanged and counter k; at k == abs(interval), one decay and the counter back to 0; nothing saved |

## Left out

- MXNet numerics are not modelled: FullyConnected as floating point, the
  real sigmoid/tanh, embeddings, the dense decoder, softmax cross entropy,
  and `criterion`'s alpha/beta penalties. Reals stand for floats and the
  activations are parameters.
- Dropout randomness and residual addition inside a chain are not modelled:
  the encoder's step function abstracts what a layer's chain computes.
- Autograd, `L.backward()`, `clip_global_norm` and `trainer.step` are not
  modelled. The optimizer's effect on later batches appears only through the
  batch number the device step receives.
- `split_and_load`, `as_in_context` and `waitall` (device placement and
  concurrency) are left out. Each device's pass is one call of the device
  step function.
- Dataset loading, vocabulary, `batchify`, argparse, timing, printing, the
  per-batch loss logging and `save_params`/`load_params` are I/O. They are
  left out; a save is recorded as the epoch index.
- The encoder built from `nlp.model.language_model.BiRNN` in
  `bi_language_model.py` is a foreign class that is not part of this model.
- `bi_language_model.py:108` reads `args.weight_dropout`, which that
  script's parser never defines, so that script stops at start-up. This is
  not modelled: the divisibility check alone stands for that script.
- The misspelled module imported at `word_language_model.py:51` is an
  import error outside the modelled logic.
- The ELMo script's module-level `forward` function and `criterion` are
  tensor code called by `train`; they are left out.
- Batching.SliceIndex, Batching.PySlice: the source slices an MXNet NDArray
  (the output of `batchify`), modelled with Python's list slicing rules.
  The two agree for the in-range starts every call site uses (i < len-1,
  Batching.GetBatch). Out-of-range starts follow Python's clamping, which
  is assumed, not established, for NDArray.
- The batch dimension is not modelled: a cell vector is one batch row, and
  `evaluate` sees the batch width as a number.
- LstmpCell.Step: clip bounds are required to be non-negative. The source
  does not check this, but a negative bound would give an empty clamp range.
- Training.TrainEpoch: the per-batch log of train (`word_language_model.py:563-567`,
  `bi_language_model.py:303-307`) can end the run, and the epoch the model
  returns does not capture this. `batch_i % args.log_interval` raises
  ZeroDivisionError on the first batch when log_interval is 0, and
  `math.exp(cur_L)` raises OverflowError once the averaged loss passes
  PyFloat.MaxExpArgument. The logged losses are not modelled.
- Training.TrainEpoch, Training.Evaluate: bptt is required to be at least 1.
  With bptt == 0 the training while loop never advances i and `range`
  raises ValueError in evaluate. With bptt < 0 the training loop moves i
  backwards, and evaluate's `range` is empty, so its final division by
  ntotal == 0 raises ZeroDivisionError.
- Training.GetPpl: the loss is a real, so NaN losses are not modelled here.
  The overflow threshold PyFloat.MaxExpArgument is a decimal constant; no
  double lies strictly between it and the largest argument math.exp accepts.
- LrSchedule.EndOfEpoch: a ZeroDivisionError inside evaluate itself (validation
  or test data too short to give one batch) ends the run before the
  schedule sees a loss. It is Training.Evaluate's None and not an input here.
  The save of an epoch whose test perplexity then overflows is not kept in
  the failed run's result.
- LstmpCell.ClipInPlace, LstmpCell.CellStep: model the imperative NDArray
  reading of `F.clip(..., out=...)`, in which the clip writes into the
  buffer. Under `hybridize` the result is discarded (see Findings and
  LstmpCell.TracedStep). Under `autograd.record` MXNet may refuse an `out=`
  write into a recorded array. Neither is captured by these two members.
- PyFloat.Less: negative infinity is not among the modelled float values.
  A validation loss is a sum of cross entropies over a token count, so it
  cannot be negative infinity.

## Findings

| source | as written | input that shows it | evidently intended | confidence | as-written member | corrected member |
|---|---|---|---|---|---|---|
| scripts/language_model/ELMo-biLM/word_language_model.py:589-590 | `update_lr_epoch` is first assigned in the improving branch only, so the else branch's `+= 1` reads an unbound local | a first epoch whose validation loss is NaN (or infinity), so `val_L < best_val` is false against `inf` | the counter starts at 0 before the epoch loop | not executed | LrSchedule.FirstEpochUnbound | LrSchedule.RunKeepsValid |
| scripts/language_model/ELMo-biLM/LSTMPCellWithClip.py:86-87 | `F.clip(next_c, ..., out=next_c)` discards its result; once the cell is hybridized (`word_language_model.py:360`) F is the symbol API, where the call builds a new node that nothing reads, so the cell state goes on unclipped (the same holds for the projection clip at lines 92-93) | cell_clip 1.0, zero weights and biases, previous cell state 5.0, with sigmoid(0) = 0.5 and tanh(0) = 0: the returned cell state is 2.5 | `next_c = F.clip(next_c, ...)`, so every returned cell element lies in [-cell_clip, cell_clip] | not executed; depends on MXNet's symbol API ignoring `out=` | LstmpCell.TracedStepExceedsCellClip | LstmpCell.CellStateWithinClip |
| scripts/language_model/bi_language_model.py:329-330 | the same unbound `update_lr_epoch` in the other script's train | a first epoch whose validation loss is NaN | the counter starts at 0 before the epoch loop | not executed | LrSchedule.FirstEpochUnbound | LrSchedule.RunKeepsValid |
