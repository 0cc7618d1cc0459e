/**
 * The conditional decoder steps: a first recurrent cell, attention over the source with the
 * first cell's state as query, then a second, context-conditioned stage.
 */
module Cond {
  import opened Linalg
  import opened Activations
  import opened Wrappers
  import opened Masking
  import opened Slicing
  import opened Attention
  import opened Gru
  import opened MultiGru
  import opened Lstm

  /** The source side a decoder step reads: `projected_context_`, `context_` and the closed-over `context_mask`. */
  datatype Source = Source(projCtx: seq<Vector>, context: seq<Vector>, mask: Option<Vector>)

  /**
   * A source of `|projCtx|` positions whose annotations and projections are `ctxDim` wide, with
   * a usable mask, under an `exp` that is positive.
   */
  ghost predicate SourceOk(act: Act, src: Source, ctxDim: nat) {
    && RowsOf(src.projCtx, ctxDim) && |src.context| == |src.projCtx| && RowsOf(src.context, ctxDim)
    && SourceMaskOk(src.mask, |src.projCtx|) && ExpPositive(act)
  }

  /** `W_comb_att`, `U_att`, `c_tt`. */
  datatype AttentionParams = AttentionParams(WComb: Matrix, Uatt: Matrix, cTt: Vector)

  predicate AttentionShapes(p: AttentionParams, dim: nat, ctxDim: nat) {
    IsMatrix(p.WComb, dim, ctxDim) && IsMatrix(p.Uatt, ctxDim, 1) && |p.cTt| == 1
  }

  /** The attention block of every conditional step, with `query` the first cell's new state. */
  function Attend(act: Act, src: Source, p: AttentionParams, query: Vector, ctxDim: nat): (r: Alignment)
    requires SourceOk(act, src, ctxDim) && AttentionShapes(p, |query|, ctxDim)
    ensures |r.weights| == |src.projCtx| && |r.context| == ctxDim
    ensures |src.projCtx| > 0 ==> Sum(r.weights) == 1.0
    ensures src.mask.Some? ==> forall s :: 0 <= s < |src.projCtx| && src.mask.value[s] == 0.0 ==> r.weights[s] == 0.0
    ensures r.context == VecMat(r.weights, src.context, ctxDim)
  {
    CondAttention(act, src.projCtx, src.context, src.mask, query, p.WComb, p.Uatt, p.cTt, ctxDim)
  }

  /** One unit of the GRU second stage: `U_nl`, `b_nl`, `Wc`, `Ux_nl`, `bx_nl`, `Wcx`. */
  datatype SecondStage = SecondStage(Unl: Matrix, bnl: Vector, Wc: Matrix, Uxnl: Matrix, bxnl: Vector, Wcx: Matrix)

  predicate SecondStageShapes(w: SecondStage, dim: nat, ctxDim: nat) {
    && IsMatrix(w.Unl, dim, 2 * dim) && |w.bnl| == 2 * dim && IsMatrix(w.Wc, ctxDim, 2 * dim)
    && IsMatrix(w.Uxnl, dim, dim) && |w.bxnl| == dim && IsMatrix(w.Wcx, ctxDim, dim)
  }

  /**
   * The unmasked update of one context-conditioned GRU unit: its gates read the running state
   * `h`, its candidate reads the first cell's state `h1` with `bx_nl` inside the reset product.
   */
  function CondUpdate(act: Act, dim: nat, h1: Vector, h: Vector, ctx: Vector, w: SecondStage): (r: Vector)
    requires |h1| == dim && |h| == dim && SecondStageShapes(w, dim, |ctx|)
    ensures |r| == dim
  {
    var preact2 := Map(act.sigmoid, Add(Add(VecMat(h, w.Unl, 2 * dim), w.bnl), VecMat(ctx, w.Wc, 2 * dim)));
    var r2 := Slice(preact2, 0, dim);
    var u2 := Slice(preact2, 1, dim);
    var preactx2 := Add(Hadamard(Add(VecMat(h1, w.Uxnl, dim), w.bxnl), r2), VecMat(ctx, w.Wcx, dim));
    var h2 := Map(act.tanh, preactx2);
    Integrate(u2, h, h2)
  }

  /** One unit of a second stage: the unmasked update blended with `h` by the row's mask value `m`. */
  function CondUnit(act: Act, dim: nat, m: real, h1: Vector, h: Vector, ctx: Vector, w: SecondStage): (r: Vector)
    requires |h1| == dim && |h| == dim && SecondStageShapes(w, dim, |ctx|)
    ensures |r| == dim
    ensures m == 0.0 ==> r == h
    ensures m == 1.0 ==> r == CondUpdate(act, dim, h1, h, ctx, w)
  {
    Blend(m, CondUpdate(act, dim, h1, h, ctx, w), h)
  }

  /** A conditional step's results: the new state, the context vector and the alignment (`alpha.T` for one row). */
  datatype CondOut = CondOut(h: Vector, ctx: Vector, alpha: Vector)

  /** The weights `gru_cond_layer` passes its step: `U`, `Ux`, the attention block and the second stage. */
  datatype GruCondParams = GruCondParams(U: Matrix, Ux: Matrix, att: AttentionParams, second: SecondStage)

  predicate GruCondShapes(p: GruCondParams, dim: nat, ctxDim: nat) {
    && IsMatrix(p.U, dim, 2 * dim) && IsMatrix(p.Ux, dim, dim)
    && AttentionShapes(p.att, dim, ctxDim) && SecondStageShapes(p.second, dim, ctxDim)
  }

  /**
   * `gru_cond_layer._step_slice`: the carried `ctx_` and `alpha_` are accepted and not read;
   * the second stage's block width is `Wcx.shape[1]`.
   */
  function GruCondStep(act: Act, m: real, x_: Vector, xx_: Vector, h: Vector, prevCtx: Option<Vector>,
                       prevAlpha: Option<Vector>, src: Source, p: GruCondParams, ctxDim: nat): (r: CondOut)
    requires |x_| == 2 * |h| && |xx_| == |h| && ctxDim > 0
    requires GruCondShapes(p, |h|, ctxDim) && SourceOk(act, src, ctxDim)
    ensures |r.h| == |h| && |r.ctx| == ctxDim && |r.alpha| == |src.projCtx|
    ensures m == 0.0 ==> r.h == h
    ensures |src.projCtx| > 0 ==> Sum(r.alpha) == 1.0
    ensures src.mask.Some? ==> forall s :: 0 <= s < |src.projCtx| && src.mask.value[s] == 0.0 ==> r.alpha[s] == 0.0
    ensures r.ctx == VecMat(r.alpha, src.context, ctxDim)
  {
    var h1 := GruStep(act, m, x_, xx_, h, p.U, p.Ux);
    var a := Attend(act, src, p.att, h1, ctxDim);
    ColsOf(p.second.Wcx, ctxDim, |h|);
    var dim := Cols(p.second.Wcx);
    CondOut(CondUnit(act, dim, m, h1, h1, a.context, p.second), a.context, a.weights)
  }

  /** The step does not depend on the carried context and alignment, which is why `one_step` may pass `None`. */
  lemma GruCondStepIgnoresCarried(act: Act, m: real, x_: Vector, xx_: Vector, h: Vector, prevCtx: Option<Vector>,
                                  prevAlpha: Option<Vector>, src: Source, p: GruCondParams, ctxDim: nat)
    requires |x_| == 2 * |h| && |xx_| == |h| && ctxDim > 0
    requires GruCondShapes(p, |h|, ctxDim) && SourceOk(act, src, ctxDim)
    ensures GruCondStep(act, m, x_, xx_, h, prevCtx, prevAlpha, src, p, ctxDim)
         == GruCondStep(act, m, x_, xx_, h, None, None, src, p, ctxDim)
  {
  }

  /**
   * With a mask of 1 the conditional GRU step is the unmasked first cell, the attention on its
   * result, and the unmasked second stage on that result and the attended context.
   */
  lemma GruCondStepUnmasked(act: Act, x_: Vector, xx_: Vector, h: Vector, prevCtx: Option<Vector>,
                            prevAlpha: Option<Vector>, src: Source, p: GruCondParams, ctxDim: nat)
    requires |x_| == 2 * |h| && |xx_| == |h| && ctxDim > 0
    requires GruCondShapes(p, |h|, ctxDim) && SourceOk(act, src, ctxDim)
    ensures var g := GruUpdate(act, |h|, x_, xx_, h, p.U, p.Ux);
            var a := Attend(act, src, p.att, g, ctxDim);
            GruCondStep(act, 1.0, x_, xx_, h, prevCtx, prevAlpha, src, p, ctxDim)
              == CondOut(CondUpdate(act, |h|, g, g, a.context, p.second), a.context, a.weights)
  {
    ColsOf(p.second.Wcx, ctxDim, |h|);
    var g := GruUpdate(act, |h|, x_, xx_, h, p.U, p.Ux);
    assert GruStep(act, 1.0, x_, xx_, h, p.U, p.Ux) == g;
  }

  predicate StagesFit(stages: seq<SecondStage>, dim: nat, ctxDim: nat) {
    forall i :: 0 <= i < |stages| ==> SecondStageShapes(stages[i], dim, ctxDim)
  }

  /** The multi-unit second stage after its first `k` units, all reading `h1` for the candidate. */
  function CondStack(act: Act, dim: nat, m: real, h1: Vector, ctx: Vector, stages: seq<SecondStage>, k: nat): (r: Vector)
    requires k <= |stages| && |h1| == dim && StagesFit(stages, dim, |ctx|)
    ensures |r| == dim
    decreases k
  {
    if k == 0 then h1
    else CondUnit(act, dim, m, h1, CondStack(act, dim, m, h1, ctx, stages, k - 1), ctx, stages[k - 1])
  }

  /** The unmasked composition of the first `k` second-stage updates, all reading `h1` for the candidate. */
  function CondUpdateStack(act: Act, dim: nat, h1: Vector, ctx: Vector, stages: seq<SecondStage>, k: nat): (r: Vector)
    requires k <= |stages| && |h1| == dim && StagesFit(stages, dim, |ctx|)
    ensures |r| == dim
    decreases k
  {
    if k == 0 then h1
    else CondUpdate(act, dim, h1, CondUpdateStack(act, dim, h1, ctx, stages, k - 1), ctx, stages[k - 1])
  }

  lemma CondStackIdentityStep(act: Act, dim: nat, h1: Vector, ctx: Vector, stages: seq<SecondStage>, k: nat)
    requires 0 < k <= |stages| && |h1| == dim && StagesFit(stages, dim, |ctx|)
    requires CondStack(act, dim, 1.0, h1, ctx, stages, k - 1) == CondUpdateStack(act, dim, h1, ctx, stages, k - 1)
    ensures CondStack(act, dim, 1.0, h1, ctx, stages, k) == CondUpdateStack(act, dim, h1, ctx, stages, k)
  {
  }

  /** A row whose mask value is 1 gets the plain composition of the second-stage updates. */
  lemma CondStackIdentity(act: Act, dim: nat, h1: Vector, ctx: Vector, stages: seq<SecondStage>, k: nat)
    requires k <= |stages| && |h1| == dim && StagesFit(stages, dim, |ctx|)
    ensures CondStack(act, dim, 1.0, h1, ctx, stages, k) == CondUpdateStack(act, dim, h1, ctx, stages, k)
  {
    for i := 0 to k
      invariant CondStack(act, dim, 1.0, h1, ctx, stages, i) == CondUpdateStack(act, dim, h1, ctx, stages, i)
    {
      CondStackIdentityStep(act, dim, h1, ctx, stages, i + 1);
    }
  }

  /** A row whose mask value is 0 passes through the whole second stage unchanged. */
  lemma {:induction false} CondStackFreeze(act: Act, dim: nat, h1: Vector, ctx: Vector, stages: seq<SecondStage>, k: nat)
    requires k <= |stages| && |h1| == dim && StagesFit(stages, dim, |ctx|)
    ensures CondStack(act, dim, 0.0, h1, ctx, stages, k) == h1
  {
    if k > 0 {
      CondStackFreeze(act, dim, h1, ctx, stages, k - 1);
    }
  }

  /**
   * `multi_gru_cond_layer._step_slice` for any number of units: the first stage is the unit
   * stack of the deep-in-time GRU, the second the conditional stack; the block width of the
   * second stage is `Wcx_1.shape[1]`.
   */
  function MultiGruCondStep(act: Act, m: real, units: seq<GruUnit>, h: Vector, prevCtx: Option<Vector>,
                            prevAlpha: Option<Vector>, src: Source, att: AttentionParams,
                            stages: seq<SecondStage>, ctxDim: nat): (r: CondOut)
    requires |units| > 0 && |stages| > 0 && UnitsFit(units, |h|) && StagesFit(stages, |h|, ctxDim) && ctxDim > 0
    requires AttentionShapes(att, |h|, ctxDim) && SourceOk(act, src, ctxDim)
    ensures |r.h| == |h| && |r.ctx| == ctxDim && |r.alpha| == |src.projCtx|
    ensures m == 0.0 ==> r.h == h
    ensures |src.projCtx| > 0 ==> Sum(r.alpha) == 1.0
    ensures src.mask.Some? ==> forall s :: 0 <= s < |src.projCtx| && src.mask.value[s] == 0.0 ==> r.alpha[s] == 0.0
    ensures r.ctx == VecMat(r.alpha, src.context, ctxDim)
  {
    var h1 := Stack(act, m, units, h, |units|);
    var a := Attend(act, src, att, h1, ctxDim);
    ColsOf(stages[0].Wcx, ctxDim, |h|);
    var dim := Cols(stages[0].Wcx);
    var h2 := CondStack(act, dim, m, h1, a.context, stages, |stages|);
    if m == 0.0 then
      StackFreeze(act, units, h, |units|);
      CondStackFreeze(act, dim, h1, a.context, stages, |stages|);
      CondOut(h2, a.context, a.weights)
    else CondOut(h2, a.context, a.weights)
  }

  /**
   * With a mask of 1 the multi-unit conditional step is the plain composition of the first-stage
   * updates, the attention on its result, and the plain composition of the second-stage updates.
   */
  lemma MultiGruCondStepUnmasked(act: Act, units: seq<GruUnit>, h: Vector, prevCtx: Option<Vector>,
                                 prevAlpha: Option<Vector>, src: Source, att: AttentionParams,
                                 stages: seq<SecondStage>, ctxDim: nat)
    requires |units| > 0 && |stages| > 0 && UnitsFit(units, |h|) && StagesFit(stages, |h|, ctxDim) && ctxDim > 0
    requires AttentionShapes(att, |h|, ctxDim) && SourceOk(act, src, ctxDim)
    ensures var g := UpdateStack(act, units, h, |units|);
            var a := Attend(act, src, att, g, ctxDim);
            MultiGruCondStep(act, 1.0, units, h, prevCtx, prevAlpha, src, att, stages, ctxDim)
              == CondOut(CondUpdateStack(act, |h|, g, a.context, stages, |stages|), a.context, a.weights)
  {
    ColsOf(stages[0].Wcx, ctxDim, |h|);
    StackIdentity(act, units, h, |units|);
    var g := UpdateStack(act, units, h, |units|);
    var a := Attend(act, src, att, g, ctxDim);
    CondStackIdentity(act, |h|, g, a.context, stages, |stages|);
  }

  /** Like the single step, the multi-unit step does not read the carried context and alignment. */
  lemma MultiGruCondStepIgnoresCarried(act: Act, m: real, units: seq<GruUnit>, h: Vector, prevCtx: Option<Vector>,
                                       prevAlpha: Option<Vector>, src: Source, att: AttentionParams,
                                       stages: seq<SecondStage>, ctxDim: nat)
    requires |units| > 0 && |stages| > 0 && UnitsFit(units, |h|) && StagesFit(stages, |h|, ctxDim) && ctxDim > 0
    requires AttentionShapes(att, |h|, ctxDim) && SourceOk(act, src, ctxDim)
    ensures MultiGruCondStep(act, m, units, h, prevCtx, prevAlpha, src, att, stages, ctxDim)
         == MultiGruCondStep(act, m, units, h, None, None, src, att, stages, ctxDim)
  {
  }

  /** With one unit in each stage the multi-unit step is the single conditional GRU step. */
  lemma MultiGruCondOneUnit(act: Act, m: real, x_: Vector, xx_: Vector, h: Vector, src: Source, p: GruCondParams,
                            ctxDim: nat)
    requires |x_| == 2 * |h| && |xx_| == |h| && ctxDim > 0
    requires GruCondShapes(p, |h|, ctxDim) && SourceOk(act, src, ctxDim)
    ensures MultiGruCondStep(act, m, [GruUnit(x_, xx_, p.U, p.Ux)], h, None, None, src, p.att, [p.second], ctxDim)
         == GruCondStep(act, m, x_, xx_, h, None, None, src, p, ctxDim)
  {
    var units := [GruUnit(x_, xx_, p.U, p.Ux)];
    assert Stack(act, m, units, h, 1) == GruStep(act, m, x_, xx_, h, p.U, p.Ux);
  }

  /**
   * `multi_gru_cond_layer._step_slice` as written for two units: the first stage calls the
   * two-unit GRU step, the second stage is the loop `for i in range(2)`.
   */
  method MultiGruCondStep2(act: Act, m: real, x0: Vector, x1: Vector, xx0: Vector, xx1: Vector, h: Vector,
                           src: Source, U0: Matrix, U1: Matrix, Wc0: Matrix, Wc1: Matrix, att: AttentionParams,
                           Ux0: Matrix, Ux1: Matrix, Wcx0: Matrix, Wcx1: Matrix, Unl0: Matrix, Unl1: Matrix,
                           Uxnl0: Matrix, Uxnl1: Matrix, bnl0: Vector, bnl1: Vector, bxnl0: Vector, bxnl1: Vector,
                           ctxDim: nat)
    returns (r: CondOut)
    requires GruShapes(x0, xx0, |h|, U0, Ux0) && GruShapes(x1, xx1, |h|, U1, Ux1) && ctxDim > 0
    requires SecondStageShapes(SecondStage(Unl0, bnl0, Wc0, Uxnl0, bxnl0, Wcx0), |h|, ctxDim)
    requires SecondStageShapes(SecondStage(Unl1, bnl1, Wc1, Uxnl1, bxnl1, Wcx1), |h|, ctxDim)
    requires AttentionShapes(att, |h|, ctxDim) && SourceOk(act, src, ctxDim)
    ensures r == MultiGruCondStep(act, m, [GruUnit(x0, xx0, U0, Ux0), GruUnit(x1, xx1, U1, Ux1)], h, None, None, src, att,
                                  [SecondStage(Unl0, bnl0, Wc0, Uxnl0, bxnl0, Wcx0), SecondStage(Unl1, bnl1, Wc1, Uxnl1, bxnl1, Wcx1)],
                                  ctxDim)
    ensures m == 0.0 ==> r.h == h
  {
    var h1 := MultiGruStep2(act, m, x0, x1, xx0, xx1, h, U0, U1, Ux0, Ux1);
    var a := Attend(act, src, att, h1, ctxDim);
    ColsOf(Wcx0, ctxDim, |h|);
    var dim := Cols(Wcx0);
    var stages := [SecondStage(Unl0, bnl0, Wc0, Uxnl0, bxnl0, Wcx0), SecondStage(Unl1, bnl1, Wc1, Uxnl1, bxnl1, Wcx1)];
    var hCur := h1;
    for i := 0 to 2
      invariant |hCur| == |h|
      invariant hCur == CondStack(act, dim, m, h1, a.context, stages, i)
    {
      hCur := CondUnit(act, dim, m, h1, hCur, a.context, stages[i]);
    }
    r := CondOut(hCur, a.context, a.weights);
  }

  /** The weights of `_lstm_step_cond_kernel`: `U`, the attention block, `U_nl`, `b_nl` and `Wc`. */
  datatype LstmCondParams = LstmCondParams(U: Matrix, att: AttentionParams, Unl: Matrix, bnl: Vector, Wc: Matrix)

  predicate LstmCondShapes(p: LstmCondParams, dim: nat, ctxDim: nat) {
    && IsMatrix(p.U, dim, 4 * dim) && AttentionShapes(p.att, dim, ctxDim)
    && IsMatrix(p.Unl, dim, 4 * dim) && |p.bnl| == 4 * dim && IsMatrix(p.Wc, ctxDim, 4 * dim)
  }

  /** The ten results of `_lstm_step_cond_kernel`. */
  datatype LstmCondOut = LstmCondOut(h: Vector, c: Vector, ctx: Vector, alpha: Vector,
                                     i1: Vector, f1: Vector, o1: Vector, i2: Vector, f2: Vector, o2: Vector)

  /**
   * `_lstm_step_cond_kernel`: both stages compute exactly the expressions of `_lstm_step_kernel`,
   * the second on `h1 · U_nl + b_nl + ctx · Wc` from the first stage's state and memory.
   */
  function LstmCondKernel(act: Act, x_: Vector, dim: nat, m: real, c: Vector, h: Vector, p: LstmCondParams,
                          src: Source, ctxDim: nat): (r: LstmCondOut)
    requires |x_| == 4 * dim && |h| == dim && |c| == dim && LstmCondShapes(p, dim, ctxDim) && SourceOk(act, src, ctxDim)
    ensures |r.h| == dim && |r.c| == dim && |r.ctx| == ctxDim && |r.alpha| == |src.projCtx|
    ensures m == 0.0 ==> r.h == h && r.c == c
    ensures |src.projCtx| > 0 ==> Sum(r.alpha) == 1.0
    ensures src.mask.Some? ==> forall s :: 0 <= s < |src.projCtx| && src.mask.value[s] == 0.0 ==> r.alpha[s] == 0.0
    ensures r.ctx == VecMat(r.alpha, src.context, ctxDim)
  {
    var k1 := LstmKernel(act, Add(VecMat(h, p.U, 4 * dim), x_), m, h, c, dim);
    var a := Attend(act, src, p.att, k1.h, ctxDim);
    var preact2 := Add(Add(VecMat(k1.h, p.Unl, 4 * dim), p.bnl), VecMat(a.context, p.Wc, 4 * dim));
    var k2 := LstmKernel(act, preact2, m, k1.h, k1.c, dim);
    LstmCondOut(k2.h, k2.c, a.context, a.weights, k1.i, k1.f, k1.o, k2.i, k2.f, k2.o)
  }

  /**
   * With a mask of 1 both stages of the conditional LSTM kernel are unmasked LSTM updates: the
   * first on `h_ · U + x_`, the second on the first's state and memory and the context the
   * attention gives for the first's state.
   */
  lemma LstmCondKernelUnmasked(act: Act, x_: Vector, dim: nat, c: Vector, h: Vector, p: LstmCondParams,
                               src: Source, ctxDim: nat)
    requires |x_| == 4 * dim && |h| == dim && |c| == dim && LstmCondShapes(p, dim, ctxDim) && SourceOk(act, src, ctxDim)
    ensures var s1 := LstmUpdate(act, Add(VecMat(h, p.U, 4 * dim), x_), h, c);
            var a := Attend(act, src, p.att, s1.h, ctxDim);
            var s2 := LstmUpdate(act, Add(Add(VecMat(s1.h, p.Unl, 4 * dim), p.bnl), VecMat(a.context, p.Wc, 4 * dim)), s1.h, s1.c);
            var r := LstmCondKernel(act, x_, dim, 1.0, c, h, p, src, ctxDim);
            r.h == s2.h && r.c == s2.c && r.ctx == a.context && r.alpha == a.weights
  {
    var k1 := LstmKernel(act, Add(VecMat(h, p.U, 4 * dim), x_), 1.0, h, c, dim);
    var s1 := LstmUpdate(act, Add(VecMat(h, p.U, 4 * dim), x_), h, c);
    assert k1.h == s1.h && k1.c == s1.c;
  }

  /** `h2, c2, ctx_, alpha.T`, as returned by `lstm_cond_layer._step_slice`. */
  datatype LstmCondStepOut = LstmCondStepOut(h: Vector, c: Vector, ctx: Vector, alpha: Vector)

  /** `lstm_cond_layer._step_slice`: the carried `ctx_` and `alpha_` are accepted and not read. */
  function LstmCondStep(act: Act, dim: nat, m: real, x_: Vector, h: Vector, c: Vector, prevCtx: Option<Vector>,
                        prevAlpha: Option<Vector>, src: Source, p: LstmCondParams, ctxDim: nat): (r: LstmCondStepOut)
    requires |x_| == 4 * dim && |h| == dim && |c| == dim && LstmCondShapes(p, dim, ctxDim) && SourceOk(act, src, ctxDim)
    ensures |r.h| == dim && |r.c| == dim && |r.ctx| == ctxDim && |r.alpha| == |src.projCtx|
    ensures m == 0.0 ==> r.h == h && r.c == c
    ensures |src.projCtx| > 0 ==> Sum(r.alpha) == 1.0
    ensures src.mask.Some? ==> forall s :: 0 <= s < |src.projCtx| && src.mask.value[s] == 0.0 ==> r.alpha[s] == 0.0
    ensures r.ctx == VecMat(r.alpha, src.context, ctxDim)
  {
    var k := LstmCondKernel(act, x_, dim, m, c, h, p, src, ctxDim);
    LstmCondStepOut(k.h, k.c, k.ctx, k.alpha)
  }

  /** With a mask of 1 the step returns the two unmasked LSTM updates around the attention. */
  lemma LstmCondStepUnmasked(act: Act, dim: nat, x_: Vector, h: Vector, c: Vector, prevCtx: Option<Vector>,
                             prevAlpha: Option<Vector>, src: Source, p: LstmCondParams, ctxDim: nat)
    requires |x_| == 4 * dim && |h| == dim && |c| == dim && LstmCondShapes(p, dim, ctxDim) && SourceOk(act, src, ctxDim)
    ensures var s1 := LstmUpdate(act, Add(VecMat(h, p.U, 4 * dim), x_), h, c);
            var a := Attend(act, src, p.att, s1.h, ctxDim);
            var s2 := LstmUpdate(act, Add(Add(VecMat(s1.h, p.Unl, 4 * dim), p.bnl), VecMat(a.context, p.Wc, 4 * dim)), s1.h, s1.c);
            LstmCondStep(act, dim, 1.0, x_, h, c, prevCtx, prevAlpha, src, p, ctxDim) == LstmCondStepOut(s2.h, s2.c, a.context, a.weights)
  {
    LstmCondKernelUnmasked(act, x_, dim, c, h, p, src, ctxDim);
  }

  /** `lstm_cond_layer._step_slice_gates`: the same four results, then both stages' gates. */
  function LstmCondStepGates(act: Act, dim: nat, m: real, x_: Vector, h: Vector, c: Vector, prevCtx: Option<Vector>,
                             prevAlpha: Option<Vector>, i1_: Vector, f1_: Vector, o1_: Vector, i2_: Vector, f2_: Vector,
                             o2_: Vector, src: Source, p: LstmCondParams, ctxDim: nat): (r: LstmCondOut)
    requires |x_| == 4 * dim && |h| == dim && |c| == dim && LstmCondShapes(p, dim, ctxDim) && SourceOk(act, src, ctxDim)
    ensures LstmCondStepOut(r.h, r.c, r.ctx, r.alpha) == LstmCondStep(act, dim, m, x_, h, c, None, None, src, p, ctxDim)
    ensures |r.i1| == dim && |r.f1| == dim && |r.o1| == dim && |r.i2| == dim && |r.f2| == dim && |r.o2| == dim
  {
    LstmCondKernel(act, x_, dim, m, c, h, p, src, ctxDim)
  }
}
