/** `_lstm_step_kernel` and its four wrappers, for one batch row. */
module Lstm {
  import opened Linalg
  import opened Activations
  import opened Masking
  import opened Slicing
  import opened Wrappers

  /** The five results of `_lstm_step_kernel`: the three gates, the memory and the hidden state. */
  datatype KernelOut = KernelOut(i: Vector, f: Vector, o: Vector, c: Vector, h: Vector)

  /** Hidden state and memory, as returned by `_lstm_step_slice`. */
  datatype LstmState = LstmState(h: Vector, c: Vector)

  /** `h, c, i, f, o`, as returned by the `_gates` wrappers. */
  datatype LstmGatesOut = LstmGatesOut(h: Vector, c: Vector, i: Vector, f: Vector, o: Vector)

  /** The gates and candidate of a `4dim`-wide preactivation, in the block order input, forget, output, candidate. */
  function Gates(act: Act, preact: Vector, dim: nat): (r: KernelOut)
    requires |preact| == 4 * dim
    ensures |r.i| == dim && |r.f| == dim && |r.o| == dim && |r.c| == dim
  {
    var b := LstmSplit(preact, dim);
    KernelOut(Map(act.sigmoid, b.input), Map(act.sigmoid, b.forget), Map(act.sigmoid, b.output),
              Map(act.tanh, b.candidate), [])
  }

  /** The unmasked LSTM update: `c = f * c_ + i * tanh(candidate)`, `h = o * tanh(c)`. */
  function LstmUpdate(act: Act, preact: Vector, h: Vector, c: Vector): (r: LstmState)
    requires |preact| == 4 * |h| && |c| == |h|
    ensures |r.h| == |h| && |r.c| == |h|
  {
    var g := Gates(act, preact, |h|);
    var cNew := Add(Hadamard(g.f, c), Hadamard(g.i, g.c));
    LstmState(Hadamard(g.o, Map(act.tanh, cNew)), cNew)
  }

  /**
   * `_lstm_step_kernel`: the memory is blended with `c_` first and the hidden state is then
   * computed from the blended memory and blended with `h_`.
   */
  function LstmKernel(act: Act, preact: Vector, m: real, h: Vector, c: Vector, dim: nat): (r: KernelOut)
    requires |preact| == 4 * dim && |h| == dim && |c| == dim
    ensures |r.i| == dim && |r.f| == dim && |r.o| == dim && |r.c| == dim && |r.h| == dim
    ensures m == 0.0 ==> r.h == h && r.c == c
    ensures m == 1.0 ==> LstmState(r.h, r.c) == LstmUpdate(act, preact, h, c)
  {
    var g := Gates(act, preact, dim);
    var cNew := Add(Hadamard(g.f, c), Hadamard(g.i, g.c));
    var cOut := Blend(m, cNew, c);
    var hNew := Hadamard(g.o, Map(act.tanh, cOut));
    KernelOut(g.i, g.f, g.o, cOut, Blend(m, hNew, h))
  }

  /** The shapes of an LSTM step: `U` is `dim × 4dim`, the gate input is `4dim` wide. */
  predicate LstmShapes(x_: Vector, h: Vector, c: Vector, U: Matrix) {
    IsMatrix(U, |h|, 4 * |h|) && |x_| == 4 * |h| && |c| == |h|
  }

  lemma QuarterWidth(U: Matrix, dim: nat)
    requires IsMatrix(U, dim, 4 * dim)
    ensures Cols(U) / 4 == dim
  {
    ColsOf(U, dim, 4 * dim);
  }

  /** `_lstm_step_slice`: `dim` is `U.shape[1] // 4` and `preact = h_ · U + x_`. */
  function LstmStep(act: Act, m: real, x_: Vector, h: Vector, c: Vector, U: Matrix): (r: LstmState)
    requires LstmShapes(x_, h, c, U)
    ensures |r.h| == |h| && |r.c| == |h|
    ensures m == 0.0 ==> r == LstmState(h, c)
    ensures m == 1.0 ==> r == LstmUpdate(act, Add(VecMat(h, U, 4 * |h|), x_), h, c)
  {
    QuarterWidth(U, |h|);
    var dim := Cols(U) / 4;
    var k := LstmKernel(act, Add(VecMat(h, U, 4 * dim), x_), m, h, c, dim);
    LstmState(k.h, k.c)
  }

  /** `_lstm_step_slice_gates`: the previous gates `i_, f_, o_` are accepted and not read. */
  function LstmStepGates(act: Act, m: real, x_: Vector, h: Vector, c: Vector, i_: Vector, f_: Vector, o_: Vector,
                         U: Matrix): (r: LstmGatesOut)
    requires LstmShapes(x_, h, c, U)
    ensures LstmState(r.h, r.c) == LstmStep(act, m, x_, h, c, U)
    ensures |r.i| == |h| && |r.f| == |h| && |r.o| == |h|
  {
    QuarterWidth(U, |h|);
    var dim := Cols(U) / 4;
    var k := LstmKernel(act, Add(VecMat(h, U, 4 * dim), x_), m, h, c, dim);
    LstmGatesOut(k.h, k.c, k.i, k.f, k.o)
  }

  /** The context weight of the attention wrappers: `Wc` is `ctx × 4dim`. */
  predicate ContextShape(ctx: Vector, h: Vector, Wc: Matrix) {
    IsMatrix(Wc, |ctx|, 4 * |h|)
  }

  /** The preactivation `h_ · U + x_ + context · Wc` of the attention wrappers. */
  function AttentionPreact(x_: Vector, ctx: Vector, h: Vector, U: Matrix, Wc: Matrix): (r: Vector)
    requires LstmShapes(x_, h, h, U) && ContextShape(ctx, h, Wc)
    ensures |r| == 4 * |h|
  {
    Add(Add(VecMat(h, U, 4 * |h|), x_), VecMat(ctx, Wc, 4 * |h|))
  }

  /** `_lstm_step_slice_attention`. */
  function LstmStepAttention(act: Act, m: real, x_: Vector, ctx: Vector, h: Vector, c: Vector,
                             U: Matrix, Wc: Matrix): (r: LstmState)
    requires LstmShapes(x_, h, c, U) && ContextShape(ctx, h, Wc)
    ensures |r.h| == |h| && |r.c| == |h|
    ensures m == 0.0 ==> r == LstmState(h, c)
  {
    QuarterWidth(U, |h|);
    var dim := Cols(U) / 4;
    var k := LstmKernel(act, AttentionPreact(x_, ctx, h, U, Wc), m, h, c, dim);
    LstmState(k.h, k.c)
  }

  /** `_lstm_step_slice_attention_gates`: like its sibling, with the gates returned too. */
  function LstmStepAttentionGates(act: Act, m: real, x_: Vector, ctx: Vector, h: Vector, c: Vector,
                                  i_: Vector, f_: Vector, o_: Vector, U: Matrix, Wc: Matrix): (r: LstmGatesOut)
    requires LstmShapes(x_, h, c, U) && ContextShape(ctx, h, Wc)
    ensures LstmState(r.h, r.c) == LstmStepAttention(act, m, x_, ctx, h, c, U, Wc)
    ensures |r.i| == |h| && |r.f| == |h| && |r.o| == |h|
  {
    QuarterWidth(U, |h|);
    var dim := Cols(U) / 4;
    var k := LstmKernel(act, AttentionPreact(x_, ctx, h, U, Wc), m, h, c, dim);
    LstmGatesOut(k.h, k.c, k.i, k.f, k.o)
  }

  /** The attention wrapper is the plain wrapper with its gate input shifted by `context · Wc`. */
  lemma AttentionStepShiftsInput(act: Act, m: real, x_: Vector, ctx: Vector, h: Vector, c: Vector, U: Matrix, Wc: Matrix)
    requires LstmShapes(x_, h, c, U) && ContextShape(ctx, h, Wc)
    ensures LstmShapes(Add(x_, VecMat(ctx, Wc, 4 * |h|)), h, c, U)
    ensures LstmStepAttention(act, m, x_, ctx, h, c, U, Wc) == LstmStep(act, m, Add(x_, VecMat(ctx, Wc, 4 * |h|)), h, c, U)
  {
    QuarterWidth(U, |h|);
    AddAssoc(VecMat(h, U, 4 * |h|), x_, VecMat(ctx, Wc, 4 * |h|));
  }

  /** A row whose mask value is 0 keeps its hidden state and memory through the `_gates` wrappers too. */
  lemma GatesStepFreeze(act: Act, x_: Vector, h: Vector, c: Vector, i_: Vector, f_: Vector, o_: Vector, U: Matrix)
    requires LstmShapes(x_, h, c, U)
    ensures var r := LstmStepGates(act, 0.0, x_, h, c, i_, f_, o_, U); r.h == h && r.c == c
  {
  }

  /** The variants `lstm_layer` can pick, one per `(context given, get_gates)` combination. */
  datatype LstmStepKind = Plain | WithGates | WithAttention | WithAttentionGates

  function IntendedKind(hasContext: bool, getGates: bool): LstmStepKind {
    if hasContext then (if getGates then WithAttentionGates else WithAttention)
    else (if getGates then WithGates else Plain)
  }

  /** The module-level step functions, by the names `eval` can find. */
  const DefinedSteps: map<string, LstmStepKind> := map[
    "_lstm_step_slice" := Plain,
    "_lstm_step_slice_gates" := WithGates,
    "_lstm_step_slice_attention" := WithAttention,
    "_lstm_step_slice_attention_gates" := WithAttentionGates]

  /** `eval(step_str)`: `None` stands for the `NameError` raised on an undefined name. */
  function ResolveStep(name: string): (r: Option<LstmStepKind>)
    ensures r.Some? <==> name in DefinedSteps
    ensures r.Some? ==> r.value == DefinedSteps[name]
  {
    if name in DefinedSteps then Some(DefinedSteps[name]) else None
  }

  function Suffix(hasContext: bool, getGates: bool): string {
    (if hasContext then "_attention" else "") + (if getGates then "_gates" else "")
  }

  /** The step name `lstm_layer` builds, as written: the base is `_lstm_step`. */
  function StepNameAsWritten(hasContext: bool, getGates: bool): string {
    "_lstm_step" + Suffix(hasContext, getGates)
  }

  /** The step name with the base the defined functions carry, `_lstm_step_slice`. */
  function StepNameCorrected(hasContext: bool, getGates: bool): string {
    "_lstm_step_slice" + Suffix(hasContext, getGates)
  }

  /** As written, no combination of flags names a defined step function, so `lstm_layer` always fails. */
  lemma StepNameAsWrittenNeverResolves(hasContext: bool, getGates: bool)
    ensures ResolveStep(StepNameAsWritten(hasContext, getGates)).None?
  {
    var name, suffix := StepNameAsWritten(hasContext, getGates), Suffix(hasContext, getGates);
    assert |suffix| == 0 || suffix[1] != 's';
    assert |name| == 10 || name[11] == suffix[1];
    forall k | k in DefinedSteps ensures k != name {
      assert |k| > 11 && k[11] == 's';
    }
  }

  /** With the corrected base every combination names the intended variant. */
  lemma StepNameCorrectedResolves(hasContext: bool, getGates: bool)
    ensures ResolveStep(StepNameCorrected(hasContext, getGates)) == Some(IntendedKind(hasContext, getGates))
  {
    var name := StepNameCorrected(hasContext, getGates);
    if hasContext && getGates {
      assert name == "_lstm_step_slice_attention_gates";
    } else if hasContext {
      assert name == "_lstm_step_slice_attention";
    } else if getGates {
      assert name == "_lstm_step_slice_gates";
    } else {
      assert name == "_lstm_step_slice";
    }
  }
}
