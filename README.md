# Recurrent layers of a Theano NMT system, in Dafny

This project models `layers.py`, the layer library of a neural machine translation system written
for Theano. The library has four parts:

- the helpers `_slice`, `dropout_layer`, `attention_layer` and the feed-forward layer;
- the parameter initialisers `param_init_*`, which fill the `params` dictionary with arrays of
  fixed shapes;
- the step functions (`_gru_step_slice*`, `_multi_gru_step_slice*_2`, `_lstm_step_*`, the
  conditional `_step_slice` closures), which compute one recurrent update;
- the layer builders (`gru_layer`, `multi_gru_layer`, `gru_cond_layer`, `multi_gru_cond_layer`,
  `lstm_layer`, `lstm_cond_layer`), their registry `layers`, and its accessors `get_layer`,
  `get_init` and `get_build`.

The builders look their weights up in `P`, default the mask and the initial states, project the
inputs, and run `theano.scan` of a step (or call the step once with `one_step`). They return the
hidden states, with `dropout_layer` applied to them when asked, and a `kw_ret` dictionary.

The model works on one batch row:

- Numbers are `real`: a vector is `seq<real>`, a matrix is `seq<seq<real>>`.
- `sigmoid`, `tanh` and `exp` are arbitrary functions passed in an `Act` value. The only fact
  the model assumes about them is that `exp` is positive, and only where the attention
  normalises.
- `theano.scan` is the generic `Scan.Outputs`, a recursive function. The loop `Scan.Run` is
  proved equal to it.
- Every builder is a function returning `Result`. Its errors are a missing key (`KeyError`), an
  array of the wrong rank, a missing or wrongly shaped `context`, a missing `init_state` under
  `one_step`, a wrong unit count (`TypeError`), a `NameError` from `eval`, and `ShapeMismatch`
  whenever the arrays do not have exactly the shapes the step functions document (`U` is
  `dim × 2dim`, `W` is `nin × 2dim`, and so on). This is stricter than the graph in one way,
  listed under "Left out": gate arrays wider than the blocks the steps cut from them.
- The parameter dictionary is a class, `Params.ParamTable`. Its `shapes` map is updated in
  place by the initialiser methods. Each method is proved equal to a function that gives the
  schema it writes.

The properties proved are these:

- **The two forms of the builders agree.** A scan equals chained one-step calls, each fed the
  previous result.
- **Masking freezes rows.** A row whose mask is 0 at every step keeps its initial state (and
  its memory).
- **Attention gives a distribution.** Every alignment sums to 1, is 0 at masked source
  positions, and its context vector is the alignment-weighted sum of the annotations.
- **`get_gates` changes no results.** The `_gates` variants return the same states and memories
  as the plain ones.
- **Initialised parameters fit.** On parameters a `param_init_*` initialiser filled, every
  builder finds each weight with the configured shape. Each builder also computes for inputs
  of the configured widths, with two qualifications. `lstm_layer` does so only with the
  corrected step name; as written it always fails (see "Findings"). `multi_gru_layer` and
  `multi_gru_cond_layer` do so only with `unit_size` / `cond_unit_size` equal to 2.
- **Mask 1 is the unmasked update.** Every step, the conditional ones included, returns its
  unmasked update under a mask value of 1.
- **Defaults.** A missing mask is all ones, and missing states are `dim` zeros, with `dim` read
  from the array the source reads it from.
- **The registry.** It holds exactly the seven layer kinds, and it fails with `KeyError` on any
  other name.

Where the documentation of the system and `layers.py` differ, the model follows `layers.py`.

## Model

| member | source | states |
|---|---|---|
| Slicing.Slice | layers.py:18-23 | the block has at most `dim` entries, and when it lies inside the row it is exactly the entries `n·dim … (n+1)·dim − 1` |
| Slicing.SliceTensorExact | layers.py:18-23 | on both ranks (2 and 3 axes) every row of the result is exactly that block of the same row of the input |
| Slicing.SlicesPartition | layers.py:18-23 | the `k` blocks of a `k·dim`-wide projection, concatenated in order, give back the projection |
| Slicing.SliceMapCommutes | layers.py:18-23 | an elementwise function applied before or after slicing gives the same block |
| Slicing.GruSplit | layers.py:137-138 | the reset and update inputs are blocks 0 and 1 and together make up the `2dim`-wide preactivation |
| Slicing.LstmSplit | layers.py:829-832 | the input, forget, output and candidate inputs are blocks 0 to 3 and together make up the `4dim`-wide preactivation |
| Activations.Activate | layers.py:28-33 | the activation keeps the width, and `linear` returns its input unchanged |
| Activations.FeedForward | layers.py:81-85 | `activ(x·W + b)` has one entry per column of `W`; `FeedForwardZeroInput` states its result on a zero input row only |
| Activations.FeedForwardZeroInput | layers.py:81-85 | on a zero input row the layer outputs its activated bias |
| Masking.Blend | layers.py:145 | the blend keeps the width; a mask of 1 gives the new row and a mask of 0 the previous one |
| Masking.BlendPicks | layers.py:145 | with a 0/1 mask the blend picks one of the two rows whole |
| Dropout.DropoutRow | layers.py:38-46 | the width is kept; without `use_noise` every entry is scaled by `1 − dropout_rate`, the rate defaulting to 0.5 |
| Dropout.DropoutSeq | layers.py:38-46 | every step keeps its width; without `use_noise` every step is scaled by `1 − dropout_rate` |
| Dropout.MaybeDropoutSeq | layers.py:244-247 | without dropout parameters the sequence is returned unchanged; with them it is `dropout_layer` of it |
| Dropout.MaybeDropoutRow | layers.py:244-247 | the same for the results of one step |
| Linalg.SumDivide | layers.py:545-546 | dividing every entry by `d` divides the sum by `d`, which is why a renormalised alignment sums to 1 |
| Linalg.VecMatIgnoresZeroWeights | layers.py:546 | rows with zero weight do not contribute to a weighted sum of rows |
| Linalg.VecMatOfCopies | layers.py:546 | a weighted sum of copies of one row is that row scaled by the sum of the weights, so weights summing to 1 give the row back |
| Attention.MaskedExp | layers.py:542-544 | one entry per score, and 0 wherever the source mask is 0 |
| Attention.Normalise | layers.py:545 | one weight per entry; the weights of a non-empty row sum to 1, and a zero entry gets weight 0 |
| Attention.AttentionWeights | layers.py:540-545 | the alignment has one weight per source position, the weights sum to 1 and vanish where the source mask is 0 |
| Attention.DenominatorPositive | layers.py:545 | with a positive `exp` and a source position whose mask value is positive (all mask values non-negative) the sum the weights are divided by is positive |
| Attention.CondAttention | layers.py:535-546 | one weight per source position, summing to 1 and 0 where the source mask is 0; the context vector is `ctxdim` wide |
| Attention.ContextIgnoresMaskedSources | layers.py:543-546 | annotations at masked positions do not reach the context vector |
| Attention.ContextOfIdenticalSources | layers.py:546 | identical annotations give back that annotation as the context vector |
| Attention.AttentionLayer | layers.py:49-64 | `ctx_t` is the weighted sum of the annotations under weights with one entry per source position, summing to 1 when there is a position, and 0 wherever `context_mask` is 0 |
| Attention.AttentionLayerOfIdenticalSources | layers.py:49-64 | when every annotation is the same vector the result is that vector, whatever the scores |
| Attention.AttentionLayerIgnoresMaskedSources | layers.py:49-64 | the annotations at masked source positions have no effect on the result |
| Gru.IntegrateGates | layers.py:144 | entries whose update gate is 1 keep the previous state, entries whose gate is 0 take the candidate |
| Gru.GruUpdate | layers.py:132-144 | the unmasked update keeps the state's width; `GruStep` states that a mask of 1 selects it |
| Gru.GruUpdateAttention | layers.py:161-173 | the same for the attention step; `AttentionUpdateShiftsInputs` relates it to `GruUpdate` |
| Gru.GruStep | layers.py:120-147 | the state keeps its width; a mask of 0 keeps the previous state, and a mask of 1 gives the unmasked update |
| Gru.GruStepAttention | layers.py:150-176 | the same for the attention step: a mask of 0 keeps the state, a mask of 1 gives the unmasked attention update |
| Gru.AttentionUpdateShiftsInputs | layers.py:150-176 | applying `sigmoid` before slicing changes nothing: the attention update is the plain update on inputs shifted by `ctx·Wc` and `ctx·Wcx` |
| Gru.AttentionStepShiftsInputs | layers.py:150-176 | the same for the masked steps |
| MultiGru.Stack | layers.py:301-315 | the state after the first `k` units keeps its width; `StackFreeze`, `StackIdentity` and `MultiGruStep2` state what it is |
| MultiGru.StackAttention | layers.py:336-350 | the same for the attention units; `StackAttentionShiftsInputs` relates it to `Stack` |
| MultiGru.StackFreeze | layers.py:287-317 | a mask of 0 leaves the state unchanged through every unit |
| MultiGru.StackIdentity | layers.py:287-317 | a mask of 1 gives the plain composition of the unit updates |
| MultiGru.StackAttentionShiftsInputs | layers.py:320-352 | the attention stack is the plain stack over inputs shifted by each unit's context projections |
| MultiGru.StackAttentionFreeze | layers.py:320-352 | a mask of 0 leaves the state unchanged through every attention unit |
| MultiGru.MultiGruStep2 | layers.py:287-317 | the loop over the two units returns the two-unit stack; a mask of 0 keeps the state and a mask of 1 gives the composition of the two unit updates |
| MultiGru.MultiGruStepAttention2 | layers.py:320-352 | the loop over the two attention units returns the two-unit attention stack; a mask of 0 keeps the state |
| Lstm.LstmUpdate | layers.py:829-837 | the unmasked update keeps the widths of state and memory; `LstmKernel` states that a mask of 1 selects it |
| Lstm.LstmKernel | layers.py:828-840 | the three gates, the memory and the state are `dim` wide; a mask of 0 keeps state and memory, a mask of 1 gives the unmasked update `c = f·c_ + i·tanh(candidate)`, `h = o·tanh(c)` |
| Lstm.QuarterWidth | layers.py:847 | a `dim × 4dim` matrix gives `U.shape[1] // 4 == dim` |
| Lstm.LstmStep | layers.py:843-851 | the state and memory keep their width; a mask of 0 keeps both, and a mask of 1 gives the unmasked update on `h_·U + x_` |
| Lstm.LstmStepGates | layers.py:854-862 | the same state and memory as `_lstm_step_slice`, plus the three gates; the previous gates are not read (a reference definition) |
| Lstm.LstmStepAttention | layers.py:865-873 | the state and memory keep their width, and a mask of 0 keeps both |
| Lstm.LstmStepAttentionGates | layers.py:876-884 | the same state and memory as `_lstm_step_slice_attention`, plus the gates |
| Lstm.AttentionStepShiftsInput | layers.py:865-873 | the attention step is the plain step with its input shifted by `context·Wc` |
| Lstm.GatesStepFreeze | layers.py:854-862 | a mask of 0 keeps the hidden state and memory through the `_gates` wrappers too |
| Lstm.ResolveStep | layers.py:843-884 | a name resolves exactly when it is one of the four step names the module defines, and then to that variant |
| Lstm.StepNameAsWrittenNeverResolves | layers.py:928-933 | as written, the name built for `eval` names no defined function, for every combination of flags |
| Lstm.StepNameCorrectedResolves | layers.py:928-933 | with the base `_lstm_step_slice` every combination of flags names the intended variant |
| Cond.Attend | layers.py:535-546 | the attention block of every conditional step gives an aligned context vector: a distribution over live positions and the weighted sum of the annotations |
| Cond.CondUpdate | layers.py:549-558 | the unmasked second-stage update keeps the width; `CondUnit` states that a mask of 1 selects it |
| Cond.CondUnit | layers.py:549-559 | the unit's result is `dim` wide, a mask of 0 keeps the running state, and a mask of 1 gives the unmasked update `CondUpdate` |
| Cond.GruCondStep | layers.py:528-561 | the new state is `dim` wide, the context and alignment are aligned, and a mask of 0 keeps the state |
| Cond.GruCondStepUnmasked | layers.py:528-561 | with a mask of 1 the step is the unmasked first GRU update, the attention on its result, and the unmasked second stage on that result and the attended context |
| Cond.GruCondStepIgnoresCarried | layers.py:528-561 | the step does not read the carried `ctx_` and `alpha_`, which is why `one_step` may pass `None` |
| Cond.CondStack | layers.py:731-746 | the second stage after its first `k` units keeps the width; `CondStackFreeze` and `MultiGruCondStep2` state what it is |
| Cond.CondUpdateStack | layers.py:731-744 | the unmasked composition of the second-stage updates keeps the width; `CondStackIdentity` states that a mask of 1 gives it |
| Cond.CondStackIdentity | layers.py:731-746 | a mask of 1 gives the plain composition of the second-stage updates |
| Cond.CondStackFreeze | layers.py:731-746 | a mask of 0 passes the state through the whole second stage unchanged |
| Cond.MultiGruCondStep | layers.py:702-748 | the new state is the first-stage stack followed by the conditional stack; context and alignment are aligned; a mask of 0 keeps the state |
| Cond.MultiGruCondStepUnmasked | layers.py:702-748 | with a mask of 1 the step is the composition of the first-stage updates, the attention on its result, and the composition of the second-stage updates |
| Cond.MultiGruCondStepIgnoresCarried | layers.py:702-748 | the multi-unit step does not read the carried context and alignment |
| Cond.MultiGruCondOneUnit | layers.py:528-561 | with one unit in each stage the multi-unit step is the single conditional GRU step |
| Cond.MultiGruCondStep2 | layers.py:702-748 | the two-unit step as written, with its loop over the second stage, returns `MultiGruCondStep` on the two units |
| Cond.LstmCondKernel | layers.py:1029-1076 | state and memory are `dim` wide, a mask of 0 keeps both; the alignment sums to 1 and is 0 at masked positions, and the context is the alignment-weighted sum of the annotations |
| Cond.LstmCondKernelUnmasked | layers.py:1029-1076 | with a mask of 1 both stages are unmasked LSTM updates: the first on `h_·U + x_`, the second on the first's state and memory with the context attended from the first's state |
| Cond.LstmCondStep | layers.py:1118-1127 | the same four results as the kernel, with the same guarantees; the carried `ctx_` and `alpha_` are not read |
| Cond.LstmCondStepUnmasked | layers.py:1118-1127 | with a mask of 1 the step returns the two unmasked LSTM updates, the attended context and the alignment |
| Cond.LstmCondStepGates | layers.py:1129-1139 | the same four results as `_step_slice`, followed by both stages' gates |
| Scan.OutputsPrefix | layers.py:233-242 | a scan of `n` steps starts with the scan of its first `k` steps |
| Scan.OutputsStepwise | layers.py:233-242 | the output at `t` is the step at `t` on the output at `t−1`, or on the initial state at 0 |
| Scan.OutputsKeep | layers.py:233-242 | a property of the initial state that every step keeps holds of every output |
| Scan.OutputsFixed | layers.py:233-242 | when every step leaves the initial state as it is, the scan repeats it |
| Scan.OutputsAgree | layers.py:233-242 | steps that agree on the visited states give the same scan |
| Scan.OutputsRelate | layers.py:233-242 | a relation that two steps keep between their states holds at every output |
| Scan.Outputs | layers.py:233-242 | a scan of `n` steps has `n` outputs; the `Outputs*` lemmas state its prefix, step, invariant and agreement properties |
| Scan.Run | layers.py:233-242 | the loop that feeds each step the previous result returns `Outputs` |
| Params.Default | layers.py:89-92 | a keyword argument left out takes its default, and one given is kept |
| Params.GruUnitKeys | layers.py:88-117 | one GRU unit writes exactly `W, b, U, Wx, bx, Ux`, plus `Wc, Wcx` exactly when `context_dim` is given, and leaves every other entry as it was |
| Params.GruUnitWidths | layers.py:88-117 | the gate arrays are `2dim` wide and the candidate arrays `dim` wide |
| Params.MultiGruKeys | layers.py:252-284 | the loop writes, for each unit `1..n`, exactly the keys and shapes of one GRU unit |
| Params.CondUnitKeys | layers.py:441-461 | one conditional unit writes the twelve per-unit names and leaves every other entry as it was |
| Params.AttentionKeys | layers.py:463-474 | the attention names are written once, without a unit index, and nothing else changes |
| Params.MultiGruCondKeys | layers.py:605-656 | the loop writes, for each unit `1..n`, the per-unit names, plus the attention names once |
| Params.LstmKeys | layers.py:792-825 | `param_init_lstm` writes `W, U, b`, plus `Wc` exactly when `context_dim` is given, all `4dim` wide |
| Params.LstmCondKeys | layers.py:965-1026 | `param_init_lstm_cond` succeeds exactly when `nin_nonlin == nin`, and writes the eleven names (`W, b, U, U_nl, b_nl, Wc` and the five attention names) with the input side `4dim` and the recurrent side `4dim_nonlin` wide |
| Params.ParamTable.InitFeedForward | layers.py:67-78 | `W` is `nin × nout` and `b` has `nout` entries, both sizes defaulting to `dim_proj` |
| Params.ParamTable.AddGruUnit | layers.py:88-117 | the dictionary gains exactly one GRU unit's arrays |
| Params.ParamTable.InitGru | layers.py:88-117 | the dictionary gains the GRU arrays of the defaulted sizes |
| Params.ParamTable.InitMultiGru | layers.py:252-284 | after the loop the dictionary holds units `1..unit_size` (default 2) |
| Params.ParamTable.AddCondUnit | layers.py:441-461 | the dictionary gains one conditional unit's twelve arrays |
| Params.ParamTable.AddAttention | layers.py:463-474 | the dictionary gains the five attention arrays |
| Params.ParamTable.InitGruCond | layers.py:427-476 | the dictionary gains the conditional GRU arrays, with `nin_nonlin` defaulting to `nin` and `dim_nonlin` to `dim` |
| Params.ParamTable.InitMultiGruCond | layers.py:605-656 | the dictionary gains units `1..cond_unit_size` (default 2), then the attention arrays |
| Params.ParamTable.AddCondUnits | layers.py:620-641 | after the unit loop the dictionary holds units `1..n` |
| Params.ParamTable.InitLstm | layers.py:792-825 | the dictionary gains the LSTM arrays of the defaulted sizes |
| Params.ParamTable.InitLstmCond | layers.py:965-1026 | the dictionary gains the conditional LSTM arrays, or is left unchanged and the failed concatenation is reported |
| Lookup.GetMat | layers.py:200-208 | `P[k]` fails with `KeyError` on a missing key and with a rank error on a vector, and otherwise returns the stored matrix |
| Lookup.GetVec | layers.py:206-208 | the same for a vector |
| Lookup.GetMatConforms | layers.py:200-208 | on a conforming `P` a key of the schema is found with its shape |
| Lookup.GetVecConforms | layers.py:206-208 | the same for a vector |
| Lookup.Project | layers.py:206-208 | one row per step, each `x_t·W + b` |
| Lookup.MaskOrOnes | layers.py:202 | a missing mask is one 1 per step; a given mask is kept |
| Lookup.StateOrZeros | layers.py:211 | a missing initial state is `dim` zeros; a given one is kept |
| GruLayers.StepAt | layers.py:230-242 | the step at `t` keeps the width of the state, and a mask of 0 at `t` keeps the state |
| GruLayers.GruScanStepwise | layers.py:233-242 | the state at `t` is the step at `t` on the state at `t−1`, or on `h0` at 0 |
| GruLayers.GruScanFreeze | layers.py:233-242 | rows whose mask is 0 throughout keep `h0` |
| GruLayers.GruLayerParamsOf | layers.py:200-226 | on success the context weights are present exactly when a context is given, and `Ux` is the array stored under its key |
| GruLayers.GruLayerSeqs | layers.py:206-213 | the scan's sequences are the mask and the two input projections, plus the context |
| GruLayers.GruLayer | layers.py:179-249 | one output per input step; without dropout the output is the hidden sequence |
| GruLayers.GruLayerOneStep | layers.py:230-231 | the step called once; a mask of 0 returns the given initial state |
| GruLayers.OneStepAt | layers.py:230-242 | the one-step call on the inputs at `t` and the scanned state before `t` gives the scanned state at `t` |
| GruLayers.OneStepsReplayScan | layers.py:230-242 | chained one-step calls, each fed the previous result, reproduce the scanned hidden sequence |
| GruLayers.GruLayerFreeze | layers.py:179-249 | a row whose mask is 0 at every step keeps its initial state throughout |
| GruLayers.GruLayerParamsConform | layers.py:88-117 | on a `P` that `param_init_gru` filled, every lookup finds an array of the configured shape |
| GruLayers.GruLayerSucceeds | layers.py:179-249 | on such a `P`, the layer computes for every input of the configured widths, with a context exactly when `context_dim` was given |
| GruLayers.GruLayerNeedsContextWeights | layers.py:213-226 | parameters initialised without `context_dim` make the layer with a context raise `KeyError` on `Wc` |
| GruLayers.GruLayerDefaults | layers.py:200-211 | the default state is `dim` zeros, with `dim` the width of `Ux` |
| MultiGruLayers.GetUnitMats | layers.py:380-403 | the lookups for units `1..n` in order succeed exactly when all are present, and the first failing unit is reported |
| MultiGruLayers.GetUnitProjections | layers.py:380-387 | the lookups succeed exactly when every unit's `W_i` and `b_i` are found, giving one projection per unit from the stored arrays |
| MultiGruLayers.MultiStepAt | layers.py:392-406 | the step at `t` keeps the width of the state, and a mask of 0 at `t` keeps the state |
| MultiGruLayers.MultiScanStepwise | layers.py:405-424 | the state at `t` is the step at `t` on the state at `t−1` |
| MultiGruLayers.MultiScanFreeze | layers.py:405-424 | rows whose mask is 0 throughout keep `h0` |
| MultiGruLayers.MultiGruLayerParamsOf | layers.py:373-403 | a failed first lookup (`Ux_1`) is reported; on success `dim` is the width of `Ux_1`, every per-unit name gives `n` arrays, and the context weights are present exactly when a context is given |
| MultiGruLayers.MultiGruLayer | layers.py:355-424 | success implies `unit_size` is 2; one output per input step, and without dropout the output is the hidden sequence |
| MultiGruLayers.MultiGruLayerOneStep | layers.py:405-406 | success implies `unit_size` is 2; a mask of 0 returns the given initial state |
| MultiGruLayers.MultiGruLayerArity | layers.py:392-406 | once the lookups succeed, a `unit_size` other than 2 raises `TypeError`, with or without `one_step` |
| MultiGruLayers.MultiOneStepAt | layers.py:405-424 | the one-step call at `t` on the scanned state before `t` gives the scanned state at `t` |
| MultiGruLayers.MultiOneStepsReplayScan | layers.py:405-424 | chained one-step calls reproduce the scanned hidden sequence |
| MultiGruLayers.MultiGruLayerFreeze | layers.py:355-424 | a row whose mask is 0 at every step keeps its initial state through both units of every step |
| MultiGruLayers.MultiGruLayerParamsConform | layers.py:252-284 | on a `P` that `param_init_multi_gru` filled, every lookup finds an array of the configured shape |
| MultiGruLayers.MultiGruLayerSucceeds | layers.py:355-424 | on such a `P` with two units, the layer computes for every input of the configured widths |
| MultiGruLayers.MultiGruLayerDefaults | layers.py:373-388 | a missing mask is all ones and a missing state is `dim` zeros, `dim` the width of `Ux_1` |
| GruCondLayers.CondStepAt | layers.py:528-561 | the state keeps its width, the context and alignment are aligned (`Aligned`), and a mask of 0 keeps the state |
| GruCondLayers.GruCondScanStepwise | layers.py:581-592 | the triple at `t` is the step at `t` on the triple before it |
| GruCondLayers.GruCondScanAligned | layers.py:581-592 | every step's context and alignment satisfy what the attention promises |
| GruCondLayers.GruCondScanFreeze | layers.py:581-592 | rows whose mask is 0 throughout keep the initial state |
| GruCondLayers.GruCondLayerParamsOf | layers.py:511-576 | a failed first lookup (`Wcx`) is reported; the lookups succeed exactly when every array is found with the rank it is used at, and each weight is the stored array |
| GruCondLayers.GruCondLayer | layers.py:479-602 | the errors of the context checks come first; on success there is one state, context vector and alignment per target step, and without dropout the output is the hidden sequence |
| GruCondLayers.GruCondLayerOneStep | layers.py:578-579 | the errors of the context and `init_state` checks come first; a mask of 0 returns `init_state`; without dropout the output is the hidden state |
| GruCondLayers.GruCondLayerOk | layers.py:479-602 | past the checks and the lookups the layer fails only on shapes |
| GruCondLayers.GruCondLayerAligned | layers.py:479-602 | every step's alignment sums to 1, is 0 where `context_mask` is 0, and its context is the weighted sum of the annotations |
| GruCondLayers.GruCondLayerFreeze | layers.py:479-602 | a target row whose mask is 0 at every step keeps its initial state |
| GruCondLayers.GruCondOneStepAt | layers.py:578-592 | the one-step call at `t` on the state before `t` gives the scan's state, context and alignment at `t` |
| GruCondLayers.GruCondOneStepsReplayScan | layers.py:578-592 | chained one-step calls reproduce the scan's three sequences |
| GruCondLayers.GruCondLayerParamsConform | layers.py:427-476 | on a `P` that `param_init_gru_cond` filled, every lookup finds an array of the configured shape |
| GruCondLayers.GruCondLayerSucceeds | layers.py:479-602 | on such a `P`, the layer computes for every input of the configured widths and every 3-axis context |
| GruCondLayers.GruCondLayerDefaults | layers.py:511-520 | a missing mask is all ones and a missing state is `dim` zeros, `dim` the width of `Wcx` |
| MultiGruCondLayers.GetUnitVecs | layers.py:693-763 | the vector lookups for units `1..n` succeed exactly when all are present |
| MultiGruCondLayers.MultiCondStepAt | layers.py:702-748 | the state keeps its width, the context and alignment are aligned, and a mask of 0 keeps the state |
| MultiGruCondLayers.MultiCondScanStepwise | layers.py:768-779 | the triple at `t` is the step at `t` on the triple before it |
| MultiGruCondLayers.MultiCondScanAligned | layers.py:768-779 | every step's context and alignment are aligned |
| MultiGruCondLayers.MultiCondScanFreeze | layers.py:768-779 | rows whose mask is 0 throughout keep the initial state |
| MultiGruCondLayers.MultiCondLayerParamsOf | layers.py:679-763 | a failed first lookup (`Wcx_1`) is reported; the lookups succeed exactly when every array is found with the rank it is used at, and each weight is the stored array |
| MultiGruCondLayers.MultiGruCondLayer | layers.py:659-789 | the errors of the context checks come first; success implies `cond_unit_size` is 2; one state, context vector and alignment per target step |
| MultiGruCondLayers.MultiCondRun | layers.py:690-789 | past the lookups the graph fails exactly when the shapes do not fit, with `ShapeMismatch`; on success one state, context vector and alignment per step |
| MultiGruCondLayers.MultiGruCondLayerOneStep | layers.py:765-766 | the errors of the context and `init_state` checks come first; success implies `cond_unit_size` is 2; a mask of 0 returns `init_state` |
| MultiGruCondLayers.MultiGruCondLayerArity | layers.py:702-766 | once the lookups succeed, a `cond_unit_size` other than 2 raises `TypeError` |
| MultiGruCondLayers.MultiGruCondLayerOk | layers.py:659-789 | past the checks and the lookups, the two-unit layer fails only on shapes |
| MultiGruCondLayers.MultiGruCondLayerAligned | layers.py:659-789 | every step's alignment is a distribution over the live source positions, and the context is its weighted sum of the annotations |
| MultiGruCondLayers.MultiGruCondLayerFreeze | layers.py:659-789 | a target row whose mask is 0 keeps its initial state through both stages of every step |
| MultiGruCondLayers.MultiCondOneStepAt | layers.py:765-779 | the one-step call at `t` on the state before `t` gives the scan's results at `t` |
| MultiGruCondLayers.MultiCondOneStepsReplayScan | layers.py:765-779 | chained one-step calls reproduce the scan's three sequences |
| MultiGruCondLayers.MultiCondSchemaFirst | layers.py:605-656 | the initialiser gives unit `i` the first-stage arrays the layer reads |
| MultiGruCondLayers.MultiCondSchemaSecond | layers.py:605-656 | the initialiser gives unit `i` the second-stage arrays the layer reads |
| MultiGruCondLayers.MultiGruCondLayerParamsConform | layers.py:605-656 | on a `P` that `param_init_multi_gru_cond` filled, every lookup finds an array of the configured shape |
| MultiGruCondLayers.MultiGruCondLayerSucceeds | layers.py:659-789 | on such a `P` with two units, the layer computes for every input of the configured widths |
| MultiGruCondLayers.MultiGruCondLayerDefaults | layers.py:679-688 | a missing mask is all ones and a missing state is `dim` zeros, `dim` the width of `Wcx_1` |
| LstmLayers.LstmStepAt | layers.py:935-947 | state and memory keep their width, a mask of 0 keeps both, and the variants without `_gates` carry the gates through unchanged |
| LstmLayers.LstmScanStepwise | layers.py:938-947 | the state at `t` is the step at `t` on the state before it |
| LstmLayers.LstmScanFreeze | layers.py:938-947 | rows whose mask is 0 throughout keep the initial state and memory |
| LstmLayers.GatesStepAgree | layers.py:843-884 | a variant and its `_gates` sibling give the same state and memory |
| LstmLayers.GatesScanAgree | layers.py:938-947 | scanning a variant and its `_gates` sibling gives the same states and memories |
| LstmLayers.LstmLayerParamsOf | layers.py:907-926 | on success the context weight is present exactly when a context is given, and `dim` is `U.shape[1] // 4` of the stored `U` |
| LstmLayers.InitStates | layers.py:914-918 | the initial state and memory are given or `dim` zeros, and the gates start at zeros |
| LstmLayers.EvalStep | layers.py:928-933 | `eval` of a defined step name gives that variant, of any other name a `NameError` |
| LstmLayers.SplitOutputs | layers.py:949-962 | the outputs are the hidden states (with optional dropout), the memories and, with `get_gates`, the gates |
| LstmLayers.LstmLayer | layers.py:887-962 | on success there is one hidden state and one memory per input step, the gates are returned exactly with `get_gates`, and without dropout the output is the hidden sequence |
| LstmLayers.LstmLayerAsWrittenFails | layers.py:928-933 | as written the layer raises on every input: a lookup error (`KeyError` or the wrong rank), or else the `NameError` of `eval` |
| LstmLayers.LstmLayerCorrectedPicksIntended | layers.py:928-933 | with the corrected name only lookups and shapes can fail |
| LstmLayers.LstmLayerOneStep | layers.py:935-936 | the gates are returned exactly with `get_gates`; a mask of 0 returns the given state and memory |
| LstmLayers.GatesNotRead | layers.py:854-884 | the `_gates` variants do not read the gates they are passed |
| LstmLayers.LstmOneStepAt | layers.py:935-947 | the one-step call at `t` on the state and memory before `t` gives the scan's state, memory and gates at `t` |
| LstmLayers.LstmLayerOneStepCorrected | layers.py:935-936 | with the corrected name one step is the intended variant's step |
| LstmLayers.LstmScanCarriesGates | layers.py:938-947 | the variants without `_gates` carry the initial gates through the whole scan |
| LstmLayers.LstmOneStepsReplayScan | layers.py:935-947 | chained one-step calls reproduce the scan |
| LstmLayers.LstmLayerFreeze | layers.py:887-962 | a row whose mask is 0 at every step keeps its initial state and memory |
| LstmLayers.LstmLayerCorrected | layers.py:887-962 | with the corrected name the layer returns the scan of the intended variant |
| LstmLayers.LstmLayerGatesAgree | layers.py:949-955 | `get_gates` adds the gates and changes neither the hidden states nor the memories |
| LstmLayers.LstmLayerParamsConform | layers.py:792-825 | on a `P` that `param_init_lstm` filled, every lookup finds an array of the configured shape |
| LstmLayers.LstmLayerSucceeds | layers.py:887-962 | on such a `P`, with the corrected name, the layer computes for every input of the configured widths |
| LstmLayers.LstmLayerDefaults | layers.py:907-918 | a missing mask is all ones, and missing state and memory are `dim` zeros, `dim` being `U.shape[1] // 4` |
| CondInputs.CheckContext | layers.py:500-503 | a missing context and a context without three axes are the two assertion failures; otherwise the annotations are returned |
| CondInputs.CheckOneStep | layers.py:500-503 | the context checks, then `init_state` is required |
| CondInputs.SourceOf | layers.py:522 | `projected_context` is one `context·Wc_att + b_att` row per source position |
| CondInputs.SourceOfOk | layers.py:522 | a source built from fitting arguments and a non-negative mask with a positive entry is one every conditional step accepts |
| CondInputs.SplitCond | layers.py:594-602 | the states (with optional dropout), contexts and alignments, one per step |
| CondInputs.SplitCondAligned | layers.py:594-602 | a scan whose steps are aligned splits into an aligned result |
| CondInputs.SplitCondStep | layers.py:594-602 | the same for one step's results |
| LstmCondLayers.LstmCondStepAt | layers.py:1118-1139 | state and memory keep their width, the context and alignment are aligned, a mask of 0 keeps state and memory, and without `get_gates` the gates are carried through |
| LstmCondLayers.LstmCondScanStepwise | layers.py:1170-1179 | the state at `t` is the step at `t` on the state before it |
| LstmCondLayers.LstmCondScanAligned | layers.py:1170-1179 | every step's context and alignment are aligned |
| LstmCondLayers.LstmCondScanFreeze | layers.py:1170-1179 | rows whose mask is 0 throughout keep the initial state and memory |
| LstmCondLayers.StepGatesAgree | layers.py:1118-1139 | `_step_slice` and `_step_slice_gates` agree on everything but the gates |
| LstmCondLayers.LstmCondGatesScanAgree | layers.py:1170-1179 | the two scans give the same states, memories, contexts and alignments |
| LstmCondLayers.LstmCondLayerParamsOf | layers.py:1102-1160 | a failed first lookup (`Wc`) is reported; the lookups succeed exactly when every array is found with the rank it is used at, each weight is the stored array, and `dim` is `Wc.shape[1] // 4` |
| LstmCondLayers.InitCondStates | layers.py:1142-1150 | the state and memory are given or zeros, and the context, alignment and gates start at zeros |
| LstmCondLayers.SplitLstmCond | layers.py:1181-1198 | the results and `kw_ret`: hidden states, memories and, with `get_gates`, the six gates |
| LstmCondLayers.LstmCondRun | layers.py:1113-1198 | past the lookups the graph fails exactly when the shapes do not fit, with `ShapeMismatch`; on success one state and memory per step, and the gates exactly with `get_gates` |
| LstmCondLayers.LstmCondLayer | layers.py:1079-1198 | the errors of the context checks come first; on success one state and memory per target step, the gates exactly with `get_gates` |
| LstmCondLayers.LstmCondLayerOneStep | layers.py:1167-1168 | the errors of the context and `init_state` checks come first; the gates exactly with `get_gates`; a mask of 0 returns the given state (and memory) |
| LstmCondLayers.LstmCondLayerOk | layers.py:1079-1198 | past the checks and the lookups the layer fails only on shapes |
| LstmCondLayers.LstmCondLayerAligned | layers.py:1079-1198 | every step's alignment is a distribution over the live source positions, and the context is its weighted sum |
| LstmCondLayers.LstmCondLayerFreeze | layers.py:1079-1198 | a target row whose mask is 0 keeps its initial state and memory |
| LstmCondLayers.LstmCondLayerGatesAgree | layers.py:1181-1190 | with and without `get_gates` the layer returns the same states, memories, contexts and alignments |
| LstmCondLayers.StepIgnoresCarried | layers.py:1118-1139 | the step reads only the state and the memory, not the carried context, alignment or gates |
| LstmCondLayers.LstmCondOneStepAt | layers.py:1167-1179 | the one-step call at `t` on the state and memory before `t` gives the scan's results at `t` |
| LstmCondLayers.LstmCondOneStepsReplayScan | layers.py:1167-1179 | chained one-step calls reproduce the scan's results |
| LstmCondLayers.LstmCondLayerParamsConform | layers.py:965-1026 | on a `P` that `param_init_lstm_cond` filled, every lookup finds an array of the configured shape |
| LstmCondLayers.LstmCondLayerSucceeds | layers.py:1079-1198 | on such a `P` the layer computes, with or without gates, for every input of the configured widths |
| LstmCondLayers.LstmCondLayerDefaults | layers.py:1102-1111 | a missing mask is all ones, and a missing state or memory is `dim` zeros, `dim` a quarter of the width of `Wc` |
| Registry.GetLayer | layers.py:1213-1215 | fails with `KeyError(name)` exactly on names not in the table, and otherwise returns the registered pair |
| Registry.GetInit | layers.py:1218-1219 | the same, returning the initialiser |
| Registry.GetBuild | layers.py:1222-1223 | the same, returning the builder |
| Registry.GetLayerOfKind | layers.py:1202-1210 | each of the seven kinds is found under its name with its own initialiser and builder |
| Registry.GetLayerOnlyKinds | layers.py:1202-1215 | a name is found exactly when it is the name of one of the seven kinds |
| Registry.NamesDistinct | layers.py:1202-1210 | the seven names are distinct |
| Registry.GetLayerPairs | layers.py:1213-1223 | `get_layer` is the pair of `get_init` and `get_build`, and all three fail on the same names |

## Left out

- Floating point: numbers are `real`, with no rounding, overflow or `NaN`.
- `sigmoid`, `tanh` and `exp` are uninterpreted. The only fact assumed is that `exp` is positive, and only where the attention normalises.
- The batch axis: the model works on one batch row. The broadcasting of `mask[:, None]` and of the one-step default mask `1.0` is taken per row.
- Randomness: the binomial draw of `dropout_layer` (`trng`) is a parameter given by the caller. The random initial values (`normal_weight`, orthogonal initialisation) are left out, and only the shapes of the arrays are kept.
- `utils` (`_p`, `normal_weight`) is not part of this model. Keys are the `Params.Key` datatype. `Wc_att` is taken as `dimctx × dimctx`.
- The `prefix` defaults and the `O['dim']`/`O['dim_proj']` lookups: `O` is the `Params.Config` value.
- `theano.scan` options (`name`, `profile`, `strict`) and the compilation of the graph. The scan is its recursive definition.
- `theano.config.exception_verbosity`, `__all__` and the other module-level bookkeeping.
- The `activ` argument of `feed_forward` given as a string for `eval`: it is the `Activation` choice instead.
- Shape errors raised by Theano (misaligned `T.dot`, broadcasting failures) are one `ShapeMismatch` error, checked before the graph runs.
- A context mask whose every position is 0 divides 0 by 0 in the source. `GruCondLayer`, `MultiGruCondLayer` and `LstmCondLayer`, their one-step forms and the conditional steps `Cond.*` are defined only for context masks whose entries are non-negative with at least one positive entry (`MaskLive`, `SourceMaskOk`). A mask with a negative entry is left out, because its normalising sum can be zero.
- Gate arrays wider than the blocks cut from them are reported as `ShapeMismatch` by `GruLayer`, `MultiGruLayer`, `GruCondLayer`, `MultiGruCondLayer`, `LstmLayer` and `LstmCondLayer` (and their one-step forms). The source computes with them: `_slice` (layers.py:18-23) takes only the first `k·dim` columns of `W`, `b`, `U`, `U_nl`, `b_nl` and `Wc`, and `U.shape[1] // 4` and `Wc.shape[1] // 4` round down. The model requires those arrays to be exactly `k·dim` wide, as the step functions document.
- A matrix without rows reads as 0 columns (`Linalg.Cols`), so a context width of 0 is treated as a shape error.
- The `context` argument is `ContextArg(ndim, annotations)` for one row; only its number of axes is checked.
- The plain LSTM and conditional LSTM scans carry the (unused) gates in their state, so that one scan covers all variants. `LstmScanCarriesGates` and `StepGatesAgree` show that those gates change nothing.
- A key that is looked up twice is read once and the value is reused. The second lookup reads the same entry and cannot fail after the first.
- *_nonlin sizes that differ from `nin` and `dim` are covered only by the `ShapeMismatch` error. The lemmas about initialised parameters take the default `*_nonlin` sizes.
- MultiGruCondLayers.MultiGruCondLayer: the `TypeError` of a `cond_unit_size` other than 2 is reported as `ArityMismatch` after every lookup succeeds. The source calls the two-unit steps with the wrong number of arguments at the same point.

## Findings

| source | as written | input that shows it | evidently intended | confidence | as-written member | corrected member |
|---|---|---|---|---|---|---|
| layers.py:928-933 | `lstm_layer` builds the name `'_lstm_step'` + `'_attention'`? + `'_gates'`? and passes it to `eval`, but the step functions are called `_lstm_step_slice…`, so `eval` raises `NameError` | any call of `lstm_layer` on parameters where every lookup succeeds, for example `context=None, get_gates=False`, which evaluates `'_lstm_step'` | the base `'_lstm_step_slice'`, which names `_lstm_step_slice`, `_lstm_step_slice_gates`, `_lstm_step_slice_attention` and `_lstm_step_slice_attention_gates` | not executed | LstmLayers.LstmLayerAsWrittenFails | LstmLayers.LstmLayerCorrectedPicksIntended |
