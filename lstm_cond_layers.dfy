/**
 * The driver `lstm_cond_layer`: the two-stage conditional LSTM step, with or without its gates,
 * scanned over the target side or called once.
 */
module LstmCondLayers {
  import opened Linalg
  import opened Activations
  import opened Wrappers
  import opened Dropout
  import opened Params
  import opened Lookup
  import opened Scan
  import opened Attention
  import opened Cond
  import opened CondInputs

  /** The sequences of the scan: the mask and `state_below` after its projection. */
  datatype LstmCondSeqs = LstmCondSeqs(mask: seq<real>, x: seq<Vector>)

  predicate LstmCondSeqsFit(s: LstmCondSeqs, p: LstmCondParams, src: Source, dim: nat, ctxDim: nat) {
    && |s.x| == |s.mask| && RowsOf(s.x, 4 * dim) && LstmCondShapes(p, dim, ctxDim) && ctxDim > 0
    && SourceShaped(src, ctxDim)
  }

  /** The six gates of a state are `dim` wide. */
  predicate GatesWidth(st: LstmCondOut, dim: nat) {
    |st.i1| == dim && |st.f1| == dim && |st.o1| == dim && |st.i2| == dim && |st.f2| == dim && |st.o2| == dim
  }

  predicate SameGates(a: LstmCondOut, b: LstmCondOut) {
    a.i1 == b.i1 && a.f1 == b.f1 && a.o1 == b.o1 && a.i2 == b.i2 && a.f2 == b.f2 && a.o2 == b.o2
  }

  /**
   * The step of `_step_slice_gates` (with `get_gates`) or `_step_slice` at time `t`. The state
   * always holds the six gates; `_step_slice` carries them through untouched.
   */
  function LstmCondStepAt(act: Act, getGates: bool, s: LstmCondSeqs, p: LstmCondParams, src: Source, ctxDim: nat, t: nat,
                          st: LstmCondOut): (r: LstmCondOut)
    requires ExpPositive(act) && LstmCondSeqsFit(s, p, src, |st.h|, ctxDim) && |st.c| == |st.h| && t < |s.mask|
    ensures |r.h| == |st.h| && |r.c| == |st.h| && Aligned(r.ctx, r.alpha, src, ctxDim)
    ensures GatesWidth(st, |st.h|) ==> GatesWidth(r, |st.h|)
    ensures s.mask[t] == 0.0 ==> r.h == st.h && r.c == st.c
    ensures !getGates ==> SameGates(r, st)
  {
    var dim := |st.h|;
    if getGates then
      LstmCondStepGates(act, dim, s.mask[t], s.x[t], st.h, st.c, Some(st.ctx), Some(st.alpha),
                        st.i1, st.f1, st.o1, st.i2, st.f2, st.o2, src, p, ctxDim)
    else
      var k := LstmCondStep(act, dim, s.mask[t], s.x[t], st.h, st.c, Some(st.ctx), Some(st.alpha), src, p, ctxDim);
      LstmCondOut(k.h, k.c, k.ctx, k.alpha, st.i1, st.f1, st.o1, st.i2, st.f2, st.o2)
  }

  function LstmCondStepFn(act: Act, getGates: bool, s: LstmCondSeqs, p: LstmCondParams, src: Source, ctxDim: nat,
                          dim: nat): (nat, LstmCondOut) -> LstmCondOut
    requires ExpPositive(act)
  {
    (t: nat, st: LstmCondOut) =>
      if t < |s.mask| && |st.h| == dim && |st.c| == dim && LstmCondSeqsFit(s, p, src, dim, ctxDim) then
        LstmCondStepAt(act, getGates, s, p, src, ctxDim, t, st)
      else st
  }

  /** Every state's hidden part and memory are `dim` wide. */
  predicate MemoryWidth(outs: seq<LstmCondOut>, dim: nat) {
    forall t :: 0 <= t < |outs| ==> |outs[t].h| == dim && |outs[t].c| == dim
  }

  /** `theano.scan` of the step from `init_states`. */
  function LstmCondScan(act: Act, getGates: bool, s: LstmCondSeqs, p: LstmCondParams, src: Source, ctxDim: nat,
                        st0: LstmCondOut): (r: seq<LstmCondOut>)
    requires ExpPositive(act) && LstmCondSeqsFit(s, p, src, |st0.h|, ctxDim) && |st0.c| == |st0.h|
    ensures |r| == |s.mask| && MemoryWidth(r, |st0.h|)
  {
    LstmCondScanWidth(act, getGates, s, p, src, ctxDim, st0);
    Outputs(LstmCondStepFn(act, getGates, s, p, src, ctxDim, |st0.h|), st0, |s.mask|)
  }

  lemma LstmCondScanWidth(act: Act, getGates: bool, s: LstmCondSeqs, p: LstmCondParams, src: Source, ctxDim: nat,
                          st0: LstmCondOut)
    requires ExpPositive(act) && LstmCondSeqsFit(s, p, src, |st0.h|, ctxDim) && |st0.c| == |st0.h|
    ensures MemoryWidth(Outputs(LstmCondStepFn(act, getGates, s, p, src, ctxDim, |st0.h|), st0, |s.mask|), |st0.h|)
  {
    var dim := |st0.h|;
    OutputsKeep(LstmCondStepFn(act, getGates, s, p, src, ctxDim, dim), st0, |s.mask|,
                (st: LstmCondOut) => |st.h| == dim && |st.c| == dim);
  }

  /** The state at `t` is the step at `t` on the state at `t − 1`, or on `init_states` at 0. */
  lemma LstmCondScanStepwise(act: Act, getGates: bool, s: LstmCondSeqs, p: LstmCondParams, src: Source, ctxDim: nat,
                             st0: LstmCondOut, t: nat)
    requires ExpPositive(act) && LstmCondSeqsFit(s, p, src, |st0.h|, ctxDim) && |st0.c| == |st0.h| && t < |s.mask|
    ensures var r := LstmCondScan(act, getGates, s, p, src, ctxDim, st0);
      && |Before(r, st0, t).h| == |st0.h| && |Before(r, st0, t).c| == |st0.h|
      && r[t] == LstmCondStepAt(act, getGates, s, p, src, ctxDim, t, Before(r, st0, t))
  {
    var f := LstmCondStepFn(act, getGates, s, p, src, ctxDim, |st0.h|);
    LstmCondScanWidth(act, getGates, s, p, src, ctxDim, st0);
    OutputsStepwise(f, st0, |s.mask|);
    var r := Outputs(f, st0, |s.mask|);
    assert r[t] == f(t, Before(r, st0, t));
  }

  lemma LstmCondScanAligned(act: Act, getGates: bool, s: LstmCondSeqs, p: LstmCondParams, src: Source, ctxDim: nat,
                            st0: LstmCondOut)
    requires ExpPositive(act) && LstmCondSeqsFit(s, p, src, |st0.h|, ctxDim) && |st0.c| == |st0.h|
    ensures var r := LstmCondScan(act, getGates, s, p, src, ctxDim, st0);
      forall t :: 0 <= t < |s.mask| ==> Aligned(r[t].ctx, r[t].alpha, src, ctxDim)
  {
    forall t | 0 <= t < |s.mask| {
      LstmCondScanStepwise(act, getGates, s, p, src, ctxDim, st0, t);
    }
  }

  lemma LstmCondScanFreeze(act: Act, getGates: bool, s: LstmCondSeqs, p: LstmCondParams, src: Source, ctxDim: nat,
                           st0: LstmCondOut)
    requires ExpPositive(act) && LstmCondSeqsFit(s, p, src, |st0.h|, ctxDim) && |st0.c| == |st0.h|
    requires forall t :: 0 <= t < |s.mask| ==> s.mask[t] == 0.0
    ensures var r := LstmCondScan(act, getGates, s, p, src, ctxDim, st0);
      forall t :: 0 <= t < |s.mask| ==> r[t].h == st0.h && r[t].c == st0.c
  {
    OutputsKeep(LstmCondStepFn(act, getGates, s, p, src, ctxDim, |st0.h|), st0, |s.mask|,
                (st: LstmCondOut) => st.h == st0.h && st.c == st0.c);
  }

  /** Two states that agree on everything but the gates, and are `dim` wide. */
  predicate SameRun(a: LstmCondOut, b: LstmCondOut, dim: nat) {
    a.h == b.h && a.c == b.c && a.ctx == b.ctx && a.alpha == b.alpha && |a.h| == dim && |a.c| == dim
  }

  /** Scanning `_step_slice` and `_step_slice_gates` gives the same states, memories, contexts and alignments. */
  lemma LstmCondGatesScanAgree(act: Act, s: LstmCondSeqs, p: LstmCondParams, src: Source, ctxDim: nat, st0: LstmCondOut)
    requires ExpPositive(act) && LstmCondSeqsFit(s, p, src, |st0.h|, ctxDim) && |st0.c| == |st0.h|
    ensures var r, r' := LstmCondScan(act, false, s, p, src, ctxDim, st0), LstmCondScan(act, true, s, p, src, ctxDim, st0);
      forall t :: 0 <= t < |s.mask| ==> SameRun(r[t], r'[t], |st0.h|)
  {
    var dim := |st0.h|;
    var f, g := LstmCondStepFn(act, false, s, p, src, ctxDim, dim), LstmCondStepFn(act, true, s, p, src, ctxDim, dim);
    forall t, a, b | 0 <= t < |s.mask| && SameRun(a, b, dim)
      ensures SameRun(f(t, a), g(t, b), dim)
    {
      StepGatesAgree(act, s, p, src, ctxDim, t, a, b);
    }
    OutputsRelate(f, g, st0, st0, |s.mask|, (a: LstmCondOut, b: LstmCondOut) => SameRun(a, b, dim));
  }

  /** `_step_slice` and `_step_slice_gates` on the same state and memory agree on everything but the gates. */
  lemma StepGatesAgree(act: Act, s: LstmCondSeqs, p: LstmCondParams, src: Source, ctxDim: nat, t: nat,
                       a: LstmCondOut, b: LstmCondOut)
    requires ExpPositive(act) && LstmCondSeqsFit(s, p, src, |a.h|, ctxDim) && t < |s.mask| && SameRun(a, b, |a.h|)
    ensures SameRun(LstmCondStepAt(act, false, s, p, src, ctxDim, t, a), LstmCondStepAt(act, true, s, p, src, ctxDim, t, b), |a.h|)
  {
  }

  /** The weights `lstm_cond_layer` reads, and `dim` as `Wc.shape[1] // 4`. */
  datatype LstmCondLayerParams = LstmCondLayerParams(dim: nat, WcAtt: Matrix, bAtt: Vector, W: Matrix, b: Vector,
                                                     step: LstmCondParams)

  /** Every lookup of `lstm_cond_layer` finds an array of the rank it is used at. */
  predicate LstmCondLayerFound(params: ParamSet, prefix: string, layer: nat) {
    && GetMat(params, LayerKey(prefix, Wc, layer)).Ok?
    && GetMat(params, LayerKey(prefix, WcAtt, layer)).Ok? && GetVec(params, LayerKey(prefix, BAtt, layer)).Ok?
    && GetMat(params, LayerKey(prefix, W, layer)).Ok? && GetVec(params, LayerKey(prefix, B, layer)).Ok?
    && GetMat(params, LayerKey(prefix, U, layer)).Ok?
    && GetMat(params, LayerKey(prefix, WCombAtt, layer)).Ok? && GetMat(params, LayerKey(prefix, UAtt, layer)).Ok?
    && GetVec(params, LayerKey(prefix, CTt, layer)).Ok?
    && GetMat(params, LayerKey(prefix, Unl, layer)).Ok? && GetVec(params, LayerKey(prefix, Bnl, layer)).Ok?
  }

  /** Each weight of `p` is the array `P` holds under its name; `dim` is a quarter of the width of `Wc`. */
  predicate LstmCondLayerHolds(params: ParamSet, prefix: string, layer: nat, p: LstmCondLayerParams)
    requires LstmCondLayerFound(params, prefix, layer)
  {
    && p.dim == Cols(GetMat(params, LayerKey(prefix, Wc, layer)).value) / 4
    && GetMat(params, LayerKey(prefix, WcAtt, layer)) == Ok(p.WcAtt) && GetVec(params, LayerKey(prefix, BAtt, layer)) == Ok(p.bAtt)
    && GetMat(params, LayerKey(prefix, W, layer)) == Ok(p.W) && GetVec(params, LayerKey(prefix, B, layer)) == Ok(p.b)
    && GetMat(params, LayerKey(prefix, U, layer)) == Ok(p.step.U) && GetMat(params, LayerKey(prefix, Wc, layer)) == Ok(p.step.Wc)
    && p.step.att == AttentionParams(GetMat(params, LayerKey(prefix, WCombAtt, layer)).value,
                                     GetMat(params, LayerKey(prefix, UAtt, layer)).value,
                                     GetVec(params, LayerKey(prefix, CTt, layer)).value)
    && GetMat(params, LayerKey(prefix, Unl, layer)) == Ok(p.step.Unl) && GetVec(params, LayerKey(prefix, Bnl, layer)) == Ok(p.step.bnl)
  }

  /**
   * The lookups of `lstm_cond_layer`, in its order: `Wc` (for `dim`), `Wc_att`, `b_att`, `W`, `b`,
   * then the shared `U`, `Wc`, `W_comb_att`, `U_att`, `c_tt`, `U_nl`, `b_nl`. The second lookup of
   * `Wc` reads the same entry as the first and cannot fail after it, so its value is reused.
   */
  function LstmCondLayerParamsOf(params: ParamSet, prefix: string, layer: nat): (r: Result<LstmCondLayerParams, LayerError>)
    ensures GetMat(params, LayerKey(prefix, Wc, layer)).Err? ==> r == Err(GetMat(params, LayerKey(prefix, Wc, layer)).error)
    ensures r.Ok? <==> LstmCondLayerFound(params, prefix, layer)
    ensures r.Ok? ==> LstmCondLayerHolds(params, prefix, layer, r.value)
  {
    var ctxW :- GetMat(params, LayerKey(prefix, Wc, layer));
    var attW :- GetMat(params, LayerKey(prefix, WcAtt, layer));
    var attB :- GetVec(params, LayerKey(prefix, BAtt, layer));
    var inW :- GetMat(params, LayerKey(prefix, W, layer));
    var inB :- GetVec(params, LayerKey(prefix, B, layer));
    var rec :- GetMat(params, LayerKey(prefix, U, layer));
    var comb :- GetMat(params, LayerKey(prefix, WCombAtt, layer));
    var score :- GetMat(params, LayerKey(prefix, UAtt, layer));
    var scoreB :- GetVec(params, LayerKey(prefix, CTt, layer));
    var recNl :- GetMat(params, LayerKey(prefix, Unl, layer));
    var biasNl :- GetVec(params, LayerKey(prefix, Bnl, layer));
    Ok(LstmCondLayerParams(Cols(ctxW) / 4, attW, attB, inW, inB,
                           LstmCondParams(rec, AttentionParams(comb, score, scoreB), recNl, biasNl, ctxW)))
  }

  /** `init_states`: the state, the memory, a zero context and alignment, and six zero gates (read only with `get_gates`). */
  function InitCondStates(initState: Option<Vector>, initMemory: Option<Vector>, dim: nat, ctxDim: nat, sourceLen: nat)
    : (r: LstmCondOut)
    ensures r.h == StateOrZeros(initState, dim) && r.c == StateOrZeros(initMemory, dim)
    ensures r.ctx == Zeros(ctxDim) && r.alpha == Zeros(sourceLen) && GatesWidth(r, dim)
  {
    LstmCondOut(StateOrZeros(initState, dim), StateOrZeros(initMemory, dim), Zeros(ctxDim), Zeros(sourceLen),
                Zeros(dim), Zeros(dim), Zeros(dim), Zeros(dim), Zeros(dim), Zeros(dim))
  }

  /** The shapes under which the graph of `lstm_cond_layer` computes. */
  predicate LstmCondLayerFits(p: LstmCondLayerParams, xs: seq<Vector>, mask: seq<real>, annotations: seq<Vector>,
                              ctxMask: Option<Vector>, h0: Vector, c0: Vector) {
    && SourceFits(annotations, p.WcAtt, p.bAtt, ctxMask) && |mask| == |xs|
    && |h0| == p.dim && |c0| == p.dim
    && RowsOf(xs, |p.W|) && IsMatrix(p.W, |p.W|, 4 * p.dim) && |p.b| == 4 * p.dim
    && LstmCondShapes(p.step, p.dim, |p.WcAtt|)
  }

  function LstmCondLayerSeqs(p: LstmCondLayerParams, xs: seq<Vector>, mask: seq<real>, annotations: seq<Vector>,
                             ctxMask: Option<Vector>, h0: Vector, c0: Vector): (r: LstmCondSeqs)
    requires LstmCondLayerFits(p, xs, mask, annotations, ctxMask, h0, c0)
    ensures r.mask == mask && |r.x| == |xs|
    ensures forall t :: 0 <= t < |xs| ==> r.x[t] == Add(VecMat(xs[t], p.W, 4 * p.dim), p.b)
  {
    LstmCondSeqs(mask, Project(xs, p.W, p.b))
  }

  lemma LayerSeqsFit(act: Act, p: LstmCondLayerParams, xs: seq<Vector>, mask: seq<real>, annotations: seq<Vector>,
                     ctxMask: Option<Vector>, h0: Vector, c0: Vector)
    requires ExpPositive(act) && MaskLive(ctxMask) && LstmCondLayerFits(p, xs, mask, annotations, ctxMask, h0, c0)
    ensures LstmCondSeqsFit(LstmCondLayerSeqs(p, xs, mask, annotations, ctxMask, h0, c0), p.step,
                            SourceOf(annotations, p.WcAtt, p.bAtt, ctxMask), |h0|, |p.WcAtt|)
  {
    SourceOfOk(act, annotations, p.WcAtt, p.bAtt, ctxMask);
  }

  /** The six gate sequences of `kw_ret` with `get_gates`. */
  datatype CondGateSeqs = CondGateSeqs(i1: seq<Vector>, f1: seq<Vector>, o1: seq<Vector>, i2: seq<Vector>,
                                       f2: seq<Vector>, o2: seq<Vector>)

  /** `h` (after the optional dropout), `ctx`, `alpha` and `hidden_without_dropout`, then `memory_output` and the gates. */
  datatype LstmCondLayerOut = LstmCondLayerOut(cond: CondLayerOut, memory: seq<Vector>, gates: Option<CondGateSeqs>)

  /** The `(h, ctx, alpha)` part of each state. */
  function CondParts(outs: seq<LstmCondOut>): (r: seq<CondOut>)
    ensures |r| == |outs| && forall t :: 0 <= t < |outs| ==> r[t] == CondOut(outs[t].h, outs[t].ctx, outs[t].alpha)
  {
    seq(|outs|, t requires 0 <= t < |outs| => CondOut(outs[t].h, outs[t].ctx, outs[t].alpha))
  }

  /** What the scan returns, split into the results and the entries of `kw_ret`. */
  function SplitLstmCond(outs: seq<LstmCondOut>, getGates: bool, dropout: Option<DropoutParams>): (r: LstmCondLayerOut)
    ensures r.cond == SplitCond(CondParts(outs), dropout)
    ensures |r.memory| == |outs| && forall t :: 0 <= t < |outs| ==> r.memory[t] == outs[t].c
    ensures r.gates.Some? <==> getGates
    ensures getGates ==>
      && |r.gates.value.i1| == |outs| && |r.gates.value.f1| == |outs| && |r.gates.value.o1| == |outs|
      && |r.gates.value.i2| == |outs| && |r.gates.value.f2| == |outs| && |r.gates.value.o2| == |outs|
      && forall t :: 0 <= t < |outs| ==>
           && r.gates.value.i1[t] == outs[t].i1 && r.gates.value.f1[t] == outs[t].f1 && r.gates.value.o1[t] == outs[t].o1
           && r.gates.value.i2[t] == outs[t].i2 && r.gates.value.f2[t] == outs[t].f2 && r.gates.value.o2[t] == outs[t].o2
  {
    var n := |outs|;
    var gates := if getGates then
      Some(CondGateSeqs(seq(n, t requires 0 <= t < n => outs[t].i1), seq(n, t requires 0 <= t < n => outs[t].f1),
                        seq(n, t requires 0 <= t < n => outs[t].o1), seq(n, t requires 0 <= t < n => outs[t].i2),
                        seq(n, t requires 0 <= t < n => outs[t].f2), seq(n, t requires 0 <= t < n => outs[t].o2)))
      else None;
    LstmCondLayerOut(SplitCond(CondParts(outs), dropout), seq(n, t requires 0 <= t < n => outs[t].c), gates)
  }

  /** The graph `lstm_cond_layer` builds once the weights are found: the shape check, the scan and the split. */
  function LstmCondRun(act: Act, p: LstmCondLayerParams, xs: seq<Vector>, ms: seq<real>, annotations: seq<Vector>,
                       contextMask: Option<Vector>, st0: LstmCondOut, getGates: bool, dropout: Option<DropoutParams>)
    : (r: Result<LstmCondLayerOut, LayerError>)
    requires ExpPositive(act) && MaskLive(contextMask)
    ensures r.Ok? <==> LstmCondLayerFits(p, xs, ms, annotations, contextMask, st0.h, st0.c)
    ensures r.Err? ==> r.error == ShapeMismatch
    ensures r.Ok? ==> |r.value.cond.output| == |xs| && |r.value.cond.hiddenWithoutDropout| == |xs| && |r.value.memory| == |xs|
    ensures r.Ok? ==> (r.value.gates.Some? <==> getGates)
    ensures r.Ok? && dropout.None? ==> r.value.cond.output == r.value.cond.hiddenWithoutDropout
  {
    if !LstmCondLayerFits(p, xs, ms, annotations, contextMask, st0.h, st0.c) then Err(ShapeMismatch)
    else
      LayerSeqsFit(act, p, xs, ms, annotations, contextMask, st0.h, st0.c);
      var outs := LstmCondScan(act, getGates, LstmCondLayerSeqs(p, xs, ms, annotations, contextMask, st0.h, st0.c), p.step,
                               SourceOf(annotations, p.WcAtt, p.bAtt, contextMask), |p.WcAtt|, st0);
      Ok(SplitLstmCond(outs, getGates, dropout))
  }

  /** `lstm_cond_layer` over a whole target sequence. */
  function LstmCondLayer(act: Act, params: ParamSet, prefix: string, layer: nat, xs: seq<Vector>, mask: Option<seq<real>>,
                         context: Option<ContextArg>, initState: Option<Vector>, initMemory: Option<Vector>,
                         contextMask: Option<Vector>, getGates: bool, dropout: Option<DropoutParams>)
    : (r: Result<LstmCondLayerOut, LayerError>)
    requires ExpPositive(act) && MaskLive(contextMask)
    ensures CheckContext(context).Err? ==> r == Err(CheckContext(context).error)
    ensures r.Ok? ==> |r.value.cond.output| == |xs| && |r.value.cond.hiddenWithoutDropout| == |xs| && |r.value.memory| == |xs|
    ensures r.Ok? ==> (r.value.gates.Some? <==> getGates)
    ensures r.Ok? && dropout.None? ==> r.value.cond.output == r.value.cond.hiddenWithoutDropout
  {
    var annotations :- CheckContext(context);
    var p :- LstmCondLayerParamsOf(params, prefix, layer);
    LstmCondRun(act, p, xs, MaskOrOnes(mask, |xs|), annotations, contextMask,
                InitCondStates(initState, initMemory, p.dim, |p.WcAtt|, |annotations|), getGates, dropout)
  }

  /** The six gates of one step. */
  datatype CondGateRow = CondGateRow(i1: Vector, f1: Vector, o1: Vector, i2: Vector, f2: Vector, o2: Vector)

  /** The results of one call: `h`, `ctx`, `alpha`, `hidden_without_dropout`, then `memory_output` and the gates. */
  datatype LstmCondStepResult = LstmCondStepResult(out: CondStepOut, memory: Vector, gates: Option<CondGateRow>)

  function SplitLstmCondStep(st: LstmCondOut, getGates: bool, dropout: Option<DropoutParams>): (r: LstmCondStepResult)
    ensures r.out == SplitCondStep(CondOut(st.h, st.ctx, st.alpha), dropout) && r.memory == st.c
    ensures r.gates.Some? <==> getGates
    ensures getGates ==> r.gates.value == CondGateRow(st.i1, st.f1, st.o1, st.i2, st.f2, st.o2)
  {
    LstmCondStepResult(SplitCondStep(CondOut(st.h, st.ctx, st.alpha), dropout), st.c,
                       if getGates then Some(CondGateRow(st.i1, st.f1, st.o1, st.i2, st.f2, st.o2)) else None)
  }

  /** The step of `one_step` on the projection of the one input `x`. */
  function OneStepOut(act: Act, getGates: bool, p: LstmCondLayerParams, x: Vector, m: real, annotations: seq<Vector>,
                      contextMask: Option<Vector>, st: LstmCondOut): (r: LstmCondOut)
    requires ExpPositive(act) && MaskLive(contextMask) && LstmCondLayerFits(p, [x], [m], annotations, contextMask, st.h, st.c)
    ensures |r.h| == |st.h| && |r.c| == |st.h| && (m == 0.0 ==> r.h == st.h && r.c == st.c)
    ensures Aligned(r.ctx, r.alpha, SourceOf(annotations, p.WcAtt, p.bAtt, contextMask), |p.WcAtt|)
  {
    LayerSeqsFit(act, p, [x], [m], annotations, contextMask, st.h, st.c);
    LstmCondStepAt(act, getGates, LstmCondLayerSeqs(p, [x], [m], annotations, contextMask, st.h, st.c), p.step,
                   SourceOf(annotations, p.WcAtt, p.bAtt, contextMask), |p.WcAtt|, 0, st)
  }

  /** `lstm_cond_layer` with `one_step`: the step called once on `init_states`. */
  function LstmCondLayerOneStep(act: Act, params: ParamSet, prefix: string, layer: nat, x: Vector, mask: Option<real>,
                                context: Option<ContextArg>, initState: Option<Vector>, initMemory: Option<Vector>,
                                contextMask: Option<Vector>, getGates: bool, dropout: Option<DropoutParams>)
    : (r: Result<LstmCondStepResult, LayerError>)
    requires ExpPositive(act) && MaskLive(contextMask)
    ensures CheckOneStep(context, initState).Err? ==> r == Err(CheckOneStep(context, initState).error)
    ensures r.Ok? ==> (r.value.gates.Some? <==> getGates)
    ensures r.Ok? && mask == Some(0.0) ==> r.value.out.hiddenWithoutDropout == initState.value
    ensures r.Ok? && mask == Some(0.0) && initMemory.Some? ==> r.value.memory == initMemory.value
    ensures r.Ok? && dropout.None? ==> r.value.out.output == r.value.out.hiddenWithoutDropout
  {
    var annotations :- CheckOneStep(context, initState);
    var p :- LstmCondLayerParamsOf(params, prefix, layer);
    var m := if mask.Some? then mask.value else 1.0;
    var st0 := InitCondStates(initState, initMemory, p.dim, |p.WcAtt|, |annotations|);
    if !LstmCondLayerFits(p, [x], [m], annotations, contextMask, st0.h, st0.c) then Err(ShapeMismatch)
    else Ok(SplitLstmCondStep(OneStepOut(act, getGates, p, x, m, annotations, contextMask, st0), getGates, dropout))
  }

  /** Past the checks and the lookups, `lstm_cond_layer` fails only on shapes. */
  lemma LstmCondLayerOk(act: Act, params: ParamSet, prefix: string, layer: nat, xs: seq<Vector>, mask: Option<seq<real>>,
                        context: Option<ContextArg>, initState: Option<Vector>, initMemory: Option<Vector>,
                        contextMask: Option<Vector>, getGates: bool, dropout: Option<DropoutParams>)
    requires ExpPositive(act) && MaskLive(contextMask)
    requires CheckContext(context).Ok? && LstmCondLayerFound(params, prefix, layer)
    ensures var p := LstmCondLayerParamsOf(params, prefix, layer).value;
      LstmCondLayer(act, params, prefix, layer, xs, mask, context, initState, initMemory, contextMask, getGates, dropout).Ok?
      <==> LstmCondLayerFits(p, xs, MaskOrOnes(mask, |xs|), context.value.annotations, contextMask,
                             StateOrZeros(initState, p.dim), StateOrZeros(initMemory, p.dim))
  {
  }

  /** Every step's alignment of `lstm_cond_layer` is a distribution over the live source positions (see `LayerAligned`). */
  lemma LstmCondLayerAligned(act: Act, params: ParamSet, prefix: string, layer: nat, xs: seq<Vector>,
                             mask: Option<seq<real>>, annotations: seq<Vector>, initState: Option<Vector>,
                             initMemory: Option<Vector>, contextMask: Option<Vector>, getGates: bool,
                             dropout: Option<DropoutParams>)
    requires ExpPositive(act) && MaskLive(contextMask)
    requires LstmCondLayer(act, params, prefix, layer, xs, mask, Some(ContextArg(3, annotations)), initState, initMemory,
                           contextMask, getGates, dropout).Ok?
    ensures LayerAligned(LstmCondLayer(act, params, prefix, layer, xs, mask, Some(ContextArg(3, annotations)), initState,
                                       initMemory, contextMask, getGates, dropout).value.cond, annotations, contextMask)
  {
    var p := LstmCondLayerParamsOf(params, prefix, layer).value;
    LstmCondRunAligned(act, p, xs, MaskOrOnes(mask, |xs|), annotations, contextMask,
                       InitCondStates(initState, initMemory, p.dim, |p.WcAtt|, |annotations|), getGates, dropout);
  }

  lemma LstmCondRunAligned(act: Act, p: LstmCondLayerParams, xs: seq<Vector>, ms: seq<real>, annotations: seq<Vector>,
                           contextMask: Option<Vector>, st0: LstmCondOut, getGates: bool, dropout: Option<DropoutParams>)
    requires ExpPositive(act) && MaskLive(contextMask)
    requires LstmCondRun(act, p, xs, ms, annotations, contextMask, st0, getGates, dropout).Ok?
    ensures LayerAligned(LstmCondRun(act, p, xs, ms, annotations, contextMask, st0, getGates, dropout).value.cond,
                         annotations, contextMask)
  {
    LayerSeqsFit(act, p, xs, ms, annotations, contextMask, st0.h, st0.c);
    var src := SourceOf(annotations, p.WcAtt, p.bAtt, contextMask);
    var s := LstmCondLayerSeqs(p, xs, ms, annotations, contextMask, st0.h, st0.c);
    LstmCondScanAligned(act, getGates, s, p.step, src, |p.WcAtt|, st0);
    var outs := LstmCondScan(act, getGates, s, p.step, src, |p.WcAtt|, st0);
    SplitCondAligned(CondParts(outs), dropout, src, |p.WcAtt|);
  }

  /** A target row whose mask is 0 at every step keeps its initial state and memory through both stages. */
  lemma LstmCondLayerFreeze(act: Act, params: ParamSet, prefix: string, layer: nat, xs: seq<Vector>, mask: seq<real>,
                            context: Option<ContextArg>, h0: Vector, c0: Vector, contextMask: Option<Vector>,
                            getGates: bool, dropout: Option<DropoutParams>)
    requires ExpPositive(act) && MaskLive(contextMask)
    requires forall t :: 0 <= t < |mask| ==> mask[t] == 0.0
    requires LstmCondLayer(act, params, prefix, layer, xs, Some(mask), context, Some(h0), Some(c0), contextMask, getGates,
                           dropout).Ok?
    ensures var out := LstmCondLayer(act, params, prefix, layer, xs, Some(mask), context, Some(h0), Some(c0), contextMask,
                                     getGates, dropout).value;
      forall t :: 0 <= t < |xs| ==> out.cond.hiddenWithoutDropout[t] == h0 && out.memory[t] == c0
  {
    var annotations := context.value.annotations;
    var p := LstmCondLayerParamsOf(params, prefix, layer).value;
    var st0 := InitCondStates(Some(h0), Some(c0), p.dim, |p.WcAtt|, |annotations|);
    LayerSeqsFit(act, p, xs, mask, annotations, contextMask, h0, c0);
    LstmCondScanFreeze(act, getGates, LstmCondLayerSeqs(p, xs, mask, annotations, contextMask, h0, c0), p.step,
                       SourceOf(annotations, p.WcAtt, p.bAtt, contextMask), |p.WcAtt|, st0);
  }

  /** With and without `get_gates`, `lstm_cond_layer` returns the same states, memories, contexts and alignments. */
  lemma LstmCondLayerGatesAgree(act: Act, params: ParamSet, prefix: string, layer: nat, xs: seq<Vector>,
                                mask: Option<seq<real>>, context: Option<ContextArg>, initState: Option<Vector>,
                                initMemory: Option<Vector>, contextMask: Option<Vector>, dropout: Option<DropoutParams>)
    requires ExpPositive(act) && MaskLive(contextMask)
    ensures var r := LstmCondLayer(act, params, prefix, layer, xs, mask, context, initState, initMemory, contextMask, false,
                                   dropout);
      var r' := LstmCondLayer(act, params, prefix, layer, xs, mask, context, initState, initMemory, contextMask, true,
                              dropout);
      (r.Ok? <==> r'.Ok?) && (r.Ok? ==> r.value.cond == r'.value.cond && r.value.memory == r'.value.memory)
  {
    if CheckContext(context).Ok? && LstmCondLayerParamsOf(params, prefix, layer).Ok? {
      var annotations := context.value.annotations;
      var p := LstmCondLayerParamsOf(params, prefix, layer).value;
      var st0 := InitCondStates(initState, initMemory, p.dim, |p.WcAtt|, |annotations|);
      RunGatesAgree(act, p, xs, MaskOrOnes(mask, |xs|), annotations, contextMask, st0, dropout);
    }
  }

  lemma RunGatesAgree(act: Act, p: LstmCondLayerParams, xs: seq<Vector>, ms: seq<real>, annotations: seq<Vector>,
                      contextMask: Option<Vector>, st0: LstmCondOut, dropout: Option<DropoutParams>)
    requires ExpPositive(act) && MaskLive(contextMask)
    ensures var r := LstmCondRun(act, p, xs, ms, annotations, contextMask, st0, false, dropout);
      var r' := LstmCondRun(act, p, xs, ms, annotations, contextMask, st0, true, dropout);
      (r.Ok? <==> r'.Ok?) && (r.Ok? ==> r.value.cond == r'.value.cond && r.value.memory == r'.value.memory)
  {
    if LstmCondLayerFits(p, xs, ms, annotations, contextMask, st0.h, st0.c) {
      LayerSeqsFit(act, p, xs, ms, annotations, contextMask, st0.h, st0.c);
      var src := SourceOf(annotations, p.WcAtt, p.bAtt, contextMask);
      var s := LstmCondLayerSeqs(p, xs, ms, annotations, contextMask, st0.h, st0.c);
      LstmCondGatesScanAgree(act, s, p.step, src, |p.WcAtt|, st0);
      var outs := LstmCondScan(act, false, s, p.step, src, |p.WcAtt|, st0);
      var outs' := LstmCondScan(act, true, s, p.step, src, |p.WcAtt|, st0);
      assert CondParts(outs) == CondParts(outs');
      SplitAgree(outs, outs', dropout);
    }
  }

  /** Scans that agree on everything but the gates split into the same results and memories. */
  lemma SplitAgree(outs: seq<LstmCondOut>, outs': seq<LstmCondOut>, dropout: Option<DropoutParams>)
    requires |outs| == |outs'| && CondParts(outs) == CondParts(outs')
    requires forall t :: 0 <= t < |outs| ==> outs[t].c == outs'[t].c
    ensures SplitLstmCond(outs, false, dropout).cond == SplitLstmCond(outs', true, dropout).cond
    ensures SplitLstmCond(outs, false, dropout).memory == SplitLstmCond(outs', true, dropout).memory
  {
  }

  /** The step does not read the carried `ctx_`, `alpha_` or gates: only the state and the memory. */
  lemma StepIgnoresCarried(act: Act, getGates: bool, s: LstmCondSeqs, p: LstmCondParams, src: Source, ctxDim: nat, t: nat,
                           a: LstmCondOut, b: LstmCondOut)
    requires ExpPositive(act) && LstmCondSeqsFit(s, p, src, |a.h|, ctxDim) && |a.c| == |a.h| && t < |s.mask|
    requires a.h == b.h && a.c == b.c
    ensures SameRun(LstmCondStepAt(act, getGates, s, p, src, ctxDim, t, a),
                    LstmCondStepAt(act, getGates, s, p, src, ctxDim, t, b), |a.h|)
    ensures getGates ==> LstmCondStepAt(act, getGates, s, p, src, ctxDim, t, a) == LstmCondStepAt(act, getGates, s, p, src, ctxDim, t, b)
  {
  }

  /** The step at `t` of the scan is the one-step call on the inputs of time `t` and the state and memory before `t`. */
  lemma SingleStepAgrees(act: Act, getGates: bool, p: LstmCondLayerParams, xs: seq<Vector>, ms: seq<real>,
                         annotations: seq<Vector>, contextMask: Option<Vector>, st0: LstmCondOut, t: nat, prev: LstmCondOut,
                         one: LstmCondOut)
    requires ExpPositive(act) && MaskLive(contextMask) && LstmCondLayerFits(p, xs, ms, annotations, contextMask, st0.h, st0.c)
    requires t < |xs| && |prev.h| == |st0.h| && |prev.c| == |st0.h| && one.h == prev.h && one.c == prev.c
    requires LstmCondLayerFits(p, [xs[t]], [ms[t]], annotations, contextMask, one.h, one.c)
    requires LstmCondSeqsFit(LstmCondLayerSeqs(p, xs, ms, annotations, contextMask, st0.h, st0.c), p.step,
                             SourceOf(annotations, p.WcAtt, p.bAtt, contextMask), |prev.h|, |p.WcAtt|)
    ensures var r := LstmCondStepAt(act, getGates, LstmCondLayerSeqs(p, xs, ms, annotations, contextMask, st0.h, st0.c),
                                    p.step, SourceOf(annotations, p.WcAtt, p.bAtt, contextMask), |p.WcAtt|, t, prev);
      var r1 := OneStepOut(act, getGates, p, xs[t], ms[t], annotations, contextMask, one);
      SameRun(r1, r, |prev.h|) && (getGates ==> SameGates(r1, r))
  {
    var src := SourceOf(annotations, p.WcAtt, p.bAtt, contextMask);
    var s := LstmCondLayerSeqs(p, xs, ms, annotations, contextMask, st0.h, st0.c);
    LayerSeqsFit(act, p, [xs[t]], [ms[t]], annotations, contextMask, one.h, one.c);
    var s1 := LstmCondLayerSeqs(p, [xs[t]], [ms[t]], annotations, contextMask, one.h, one.c);
    assert s1.x[0] == s.x[t];
    assert LstmCondStepAt(act, getGates, s1, p.step, src, |p.WcAtt|, 0, one)
        == LstmCondStepAt(act, getGates, s, p.step, src, |p.WcAtt|, t, one);
    StepIgnoresCarried(act, getGates, s, p.step, src, |p.WcAtt|, t, one, prev);
  }

  /** The state a one-step call at `t` is given: the scan's state and memory before `t`. */
  function ReplayInput(out: LstmCondLayerOut, h0: Vector, c0: Vector, t: nat): (r: (Vector, Vector))
    requires t <= |out.cond.hiddenWithoutDropout| && t <= |out.memory|
    ensures t == 0 ==> r == (h0, c0)
    ensures t > 0 ==> r == (out.cond.hiddenWithoutDropout[t - 1], out.memory[t - 1])
  {
    if t == 0 then (h0, c0) else (out.cond.hiddenWithoutDropout[t - 1], out.memory[t - 1])
  }

  /** What a one-step call at `t` returns if it reproduces step `t` of the scan. */
  function ReplayOutput(out: LstmCondLayerOut, getGates: bool, t: nat): (r: LstmCondStepResult)
    requires t < |out.cond.hiddenWithoutDropout| && t < |out.cond.contexts| && t < |out.cond.alphas| && t < |out.memory|
    requires out.gates.Some? <==> getGates
    requires getGates ==> && t < |out.gates.value.i1| && t < |out.gates.value.f1| && t < |out.gates.value.o1|
                          && t < |out.gates.value.i2| && t < |out.gates.value.f2| && t < |out.gates.value.o2|
    ensures r.out == CondStepOut(out.cond.hiddenWithoutDropout[t], out.cond.contexts[t], out.cond.alphas[t],
                                 out.cond.hiddenWithoutDropout[t])
    ensures r.memory == out.memory[t] && (r.gates.Some? <==> getGates)
  {
    var g := out.gates;
    LstmCondStepResult(CondStepOut(out.cond.hiddenWithoutDropout[t], out.cond.contexts[t], out.cond.alphas[t],
                                   out.cond.hiddenWithoutDropout[t]),
                       out.memory[t],
                       if getGates then Some(CondGateRow(g.value.i1[t], g.value.f1[t], g.value.o1[t], g.value.i2[t],
                                                         g.value.f2[t], g.value.o2[t]))
                       else None)
  }

  lemma FitsAt(p: LstmCondLayerParams, xs: seq<Vector>, ms: seq<real>, annotations: seq<Vector>,
               contextMask: Option<Vector>, h0: Vector, c0: Vector, t: nat, h: Vector, c: Vector)
    requires LstmCondLayerFits(p, xs, ms, annotations, contextMask, h0, c0) && t < |xs| && |h| == |h0| && |c| == |h0|
    ensures LstmCondLayerFits(p, [xs[t]], [ms[t]], annotations, contextMask, h, c)
  {
  }

  /** A one-step state that agrees with step `t` of the scan splits into what `ReplayOutput` reads back at `t`. */
  lemma ReplayMatches(outs: seq<LstmCondOut>, getGates: bool, t: nat, one: LstmCondOut)
    requires t < |outs| && SameRun(one, outs[t], |one.h|) && (getGates ==> SameGates(one, outs[t]))
    ensures SplitLstmCondStep(one, getGates, None) == ReplayOutput(SplitLstmCond(outs, getGates, None), getGates, t)
  {
  }

  /** One step of the scan as a one-step call fed the state and memory before `t`. */
  lemma LstmCondOneStepAt(act: Act, params: ParamSet, prefix: string, layer: nat, xs: seq<Vector>, mask: Option<seq<real>>,
                          context: Option<ContextArg>, h0: Vector, c0: Vector, contextMask: Option<Vector>, getGates: bool,
                          t: nat)
    requires ExpPositive(act) && MaskLive(contextMask)
    requires LstmCondLayer(act, params, prefix, layer, xs, mask, context, Some(h0), Some(c0), contextMask, getGates, None).Ok?
    requires t < |xs|
    ensures var out := LstmCondLayer(act, params, prefix, layer, xs, mask, context, Some(h0), Some(c0), contextMask,
                                     getGates, None).value;
      var inp := ReplayInput(out, h0, c0, t);
      LstmCondLayerOneStep(act, params, prefix, layer, xs[t], Some(MaskOrOnes(mask, |xs|)[t]), context, Some(inp.0),
                           Some(inp.1), contextMask, getGates, None)
      == Ok(ReplayOutput(out, getGates, t))
  {
    var annotations := context.value.annotations;
    var p := LstmCondLayerParamsOf(params, prefix, layer).value;
    var ms := MaskOrOnes(mask, |xs|);
    var ctxDim := |p.WcAtt|;
    var st0 := InitCondStates(Some(h0), Some(c0), p.dim, ctxDim, |annotations|);
    RunOneStepAt(act, p, xs, ms, annotations, contextMask, st0, getGates, t);
  }

  /** `LstmCondOneStepAt` past the checks and the lookups. */
  lemma RunOneStepAt(act: Act, p: LstmCondLayerParams, xs: seq<Vector>, ms: seq<real>, annotations: seq<Vector>,
                     contextMask: Option<Vector>, st0: LstmCondOut, getGates: bool, t: nat)
    requires ExpPositive(act) && MaskLive(contextMask)
    requires LstmCondRun(act, p, xs, ms, annotations, contextMask, st0, getGates, None).Ok? && t < |xs|
    ensures var out := LstmCondRun(act, p, xs, ms, annotations, contextMask, st0, getGates, None).value;
      var inp := ReplayInput(out, st0.h, st0.c, t);
      var one := InitCondStates(Some(inp.0), Some(inp.1), p.dim, |p.WcAtt|, |annotations|);
      && LstmCondLayerFits(p, [xs[t]], [ms[t]], annotations, contextMask, one.h, one.c)
      && SplitLstmCondStep(OneStepOut(act, getGates, p, xs[t], ms[t], annotations, contextMask, one), getGates, None)
         == ReplayOutput(out, getGates, t)
  {
    var src := SourceOf(annotations, p.WcAtt, p.bAtt, contextMask);
    var ctxDim := |p.WcAtt|;
    LayerSeqsFit(act, p, xs, ms, annotations, contextMask, st0.h, st0.c);
    var s := LstmCondLayerSeqs(p, xs, ms, annotations, contextMask, st0.h, st0.c);
    var outs := LstmCondScan(act, getGates, s, p.step, src, ctxDim, st0);
    var out := SplitLstmCond(outs, getGates, None);
    var prev := Before(outs, st0, t);
    LstmCondScanStepwise(act, getGates, s, p.step, src, ctxDim, st0, t);
    var inp := ReplayInput(out, st0.h, st0.c, t);
    assert inp.0 == prev.h && inp.1 == prev.c;
    var one := InitCondStates(Some(inp.0), Some(inp.1), p.dim, ctxDim, |annotations|);
    FitsAt(p, xs, ms, annotations, contextMask, st0.h, st0.c, t, one.h, one.c);
    SingleStepAgrees(act, getGates, p, xs, ms, annotations, contextMask, st0, t, prev, one);
    ReplayMatches(outs, getGates, t, OneStepOut(act, getGates, p, xs[t], ms[t], annotations, contextMask, one));
  }

  /** Chained one-step calls, each fed the previous state and memory, reproduce the scan's results. */
  lemma LstmCondOneStepsReplayScan(act: Act, params: ParamSet, prefix: string, layer: nat, xs: seq<Vector>,
                                   mask: Option<seq<real>>, context: Option<ContextArg>, h0: Vector, c0: Vector,
                                   contextMask: Option<Vector>, getGates: bool)
    requires ExpPositive(act) && MaskLive(contextMask)
    requires LstmCondLayer(act, params, prefix, layer, xs, mask, context, Some(h0), Some(c0), contextMask, getGates, None).Ok?
    ensures var out := LstmCondLayer(act, params, prefix, layer, xs, mask, context, Some(h0), Some(c0), contextMask,
                                     getGates, None).value;
      forall t :: 0 <= t < |xs| ==>
        var inp := ReplayInput(out, h0, c0, t);
        LstmCondLayerOneStep(act, params, prefix, layer, xs[t], Some(MaskOrOnes(mask, |xs|)[t]), context, Some(inp.0),
                             Some(inp.1), contextMask, getGates, None)
        == Ok(ReplayOutput(out, getGates, t))
  {
    forall t | 0 <= t < |xs| {
      LstmCondOneStepAt(act, params, prefix, layer, xs, mask, context, h0, c0, contextMask, getGates, t);
    }
  }

  /** The schema `param_init_lstm_cond` writes when the `*_nonlin` sizes are left at `nin` and `dim`. */
  function LstmCondSchema(prefix: string, nin: nat, dim: nat, dimctx: nat, layer: nat): Schema {
    LstmCondInto(map[], prefix, nin, dim, dimctx, nin, dim, layer).value
  }

  /** The lookups before the scan: `Wc`, the source projection and the input projection. */
  lemma InputLookupsConform(params: ParamSet, prefix: string, nin: nat, dim: nat, dimctx: nat, layer: nat)
    requires Conforms(params, LstmCondSchema(prefix, nin, dim, dimctx, layer))
    ensures
      && GetMat(params, LayerKey(prefix, Wc, layer)).Ok? && IsMatrix(GetMat(params, LayerKey(prefix, Wc, layer)).value, dimctx, 4 * dim)
      && GetMat(params, LayerKey(prefix, WcAtt, layer)).Ok? && IsMatrix(GetMat(params, LayerKey(prefix, WcAtt, layer)).value, dimctx, dimctx)
      && GetVec(params, LayerKey(prefix, BAtt, layer)).Ok? && |GetVec(params, LayerKey(prefix, BAtt, layer)).value| == dimctx
      && GetMat(params, LayerKey(prefix, W, layer)).Ok? && IsMatrix(GetMat(params, LayerKey(prefix, W, layer)).value, nin, 4 * dim)
      && GetVec(params, LayerKey(prefix, B, layer)).Ok? && |GetVec(params, LayerKey(prefix, B, layer)).value| == 4 * dim
  {
    var s := LstmCondSchema(prefix, nin, dim, dimctx, layer);
    GetMatConforms(params, s, LayerKey(prefix, Wc, layer), dimctx, 4 * dim);
    GetMatConforms(params, s, LayerKey(prefix, WcAtt, layer), dimctx, dimctx);
    GetVecConforms(params, s, LayerKey(prefix, BAtt, layer), dimctx);
    GetMatConforms(params, s, LayerKey(prefix, W, layer), nin, 4 * dim);
    GetVecConforms(params, s, LayerKey(prefix, B, layer), 4 * dim);
  }

  /** The lookups of the scan's shared variables. */
  lemma SharedLookupsConform(params: ParamSet, prefix: string, nin: nat, dim: nat, dimctx: nat, layer: nat)
    requires Conforms(params, LstmCondSchema(prefix, nin, dim, dimctx, layer))
    ensures
      && GetMat(params, LayerKey(prefix, U, layer)).Ok? && IsMatrix(GetMat(params, LayerKey(prefix, U, layer)).value, dim, 4 * dim)
      && GetMat(params, LayerKey(prefix, WCombAtt, layer)).Ok? && IsMatrix(GetMat(params, LayerKey(prefix, WCombAtt, layer)).value, dim, dimctx)
      && GetMat(params, LayerKey(prefix, UAtt, layer)).Ok? && IsMatrix(GetMat(params, LayerKey(prefix, UAtt, layer)).value, dimctx, 1)
      && GetVec(params, LayerKey(prefix, CTt, layer)).Ok? && |GetVec(params, LayerKey(prefix, CTt, layer)).value| == 1
      && GetMat(params, LayerKey(prefix, Unl, layer)).Ok? && IsMatrix(GetMat(params, LayerKey(prefix, Unl, layer)).value, dim, 4 * dim)
      && GetVec(params, LayerKey(prefix, Bnl, layer)).Ok? && |GetVec(params, LayerKey(prefix, Bnl, layer)).value| == 4 * dim
  {
    var s := LstmCondSchema(prefix, nin, dim, dimctx, layer);
    GetMatConforms(params, s, LayerKey(prefix, U, layer), dim, 4 * dim);
    GetMatConforms(params, s, LayerKey(prefix, WCombAtt, layer), dim, dimctx);
    GetMatConforms(params, s, LayerKey(prefix, UAtt, layer), dimctx, 1);
    GetVecConforms(params, s, LayerKey(prefix, CTt, layer), 1);
    GetMatConforms(params, s, LayerKey(prefix, Unl, layer), dim, 4 * dim);
    GetVecConforms(params, s, LayerKey(prefix, Bnl, layer), 4 * dim);
  }

  /** Every weight has the shape the initialiser gives it. */
  predicate LstmCondLayerShapes(p: LstmCondLayerParams, nin: nat, dim: nat, dimctx: nat) {
    && p.dim == dim && IsMatrix(p.WcAtt, dimctx, dimctx) && |p.bAtt| == dimctx
    && IsMatrix(p.W, nin, 4 * dim) && |p.b| == 4 * dim && LstmCondShapes(p.step, dim, dimctx)
  }

  /** On a `P` that `param_init_lstm_cond` filled, every lookup finds an array of the configured shape. */
  lemma LstmCondLayerParamsConform(params: ParamSet, prefix: string, nin: nat, dim: nat, dimctx: nat, layer: nat)
    requires Conforms(params, LstmCondSchema(prefix, nin, dim, dimctx, layer)) && dimctx > 0
    ensures var r := LstmCondLayerParamsOf(params, prefix, layer);
      r.Ok? && LstmCondLayerShapes(r.value, nin, dim, dimctx)
  {
    InputLookupsConform(params, prefix, nin, dim, dimctx, layer);
    SharedLookupsConform(params, prefix, nin, dim, dimctx, layer);
    ColsOf(GetMat(params, LayerKey(prefix, Wc, layer)).value, dimctx, 4 * dim);
  }

  /**
   * On a `P` that `param_init_lstm_cond` filled, `lstm_cond_layer` computes, with or without
   * gates, for every input of the configured widths and every 3-axis context of `dimctx`-wide annotations.
   */
  lemma LstmCondLayerSucceeds(act: Act, params: ParamSet, prefix: string, nin: nat, dim: nat, dimctx: nat, layer: nat,
                              xs: seq<Vector>, mask: Option<seq<real>>, annotations: seq<Vector>,
                              initState: Option<Vector>, initMemory: Option<Vector>, contextMask: Option<Vector>,
                              getGates: bool, dropout: Option<DropoutParams>)
    requires ExpPositive(act) && MaskLive(contextMask)
    requires Conforms(params, LstmCondSchema(prefix, nin, dim, dimctx, layer)) && dimctx > 0
    requires RowsOf(xs, nin) && (mask.Some? ==> |mask.value| == |xs|)
    requires (initState.Some? ==> |initState.value| == dim) && (initMemory.Some? ==> |initMemory.value| == dim)
    requires RowsOf(annotations, dimctx) && (contextMask.Some? ==> |contextMask.value| == |annotations|)
    ensures LstmCondLayer(act, params, prefix, layer, xs, mask, Some(ContextArg(3, annotations)), initState, initMemory,
                          contextMask, getGates, dropout).Ok?
  {
    LstmCondLayerParamsConform(params, prefix, nin, dim, dimctx, layer);
    LstmCondLayerOk(act, params, prefix, layer, xs, mask, Some(ContextArg(3, annotations)), initState, initMemory,
                    contextMask, getGates, dropout);
  }

  /** A missing mask is all ones, and a missing state or memory is `dim` zeros, `dim` being a quarter of the width of `Wc`. */
  lemma LstmCondLayerDefaults(act: Act, params: ParamSet, prefix: string, nin: nat, dim: nat, dimctx: nat, layer: nat,
                              xs: seq<Vector>, context: Option<ContextArg>, contextMask: Option<Vector>, getGates: bool,
                              dropout: Option<DropoutParams>)
    requires ExpPositive(act) && MaskLive(contextMask)
    requires Conforms(params, LstmCondSchema(prefix, nin, dim, dimctx, layer)) && dimctx > 0
    ensures LstmCondLayer(act, params, prefix, layer, xs, None, context, None, None, contextMask, getGates, dropout)
         == LstmCondLayer(act, params, prefix, layer, xs, Some(Ones(|xs|)), context, Some(Zeros(dim)), Some(Zeros(dim)),
                          contextMask, getGates, dropout)
  {
    LstmCondLayerParamsConform(params, prefix, nin, dim, dimctx, layer);
    var p := LstmCondLayerParamsOf(params, prefix, layer).value;
    if CheckContext(context).Ok? {
      var n := |context.value.annotations|;
      assert InitCondStates(None, None, p.dim, |p.WcAtt|, n)
          == InitCondStates(Some(Zeros(dim)), Some(Zeros(dim)), p.dim, |p.WcAtt|, n);
      assert MaskOrOnes(None, |xs|) == MaskOrOnes(Some(Ones(|xs|)), |xs|);
    }
  }
}
