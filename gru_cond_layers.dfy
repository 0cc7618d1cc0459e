/** The driver `gru_cond_layer`: the conditional GRU step scanned over the target side, or called once. */
module GruCondLayers {
  import opened Linalg
  import opened Activations
  import opened Wrappers
  import opened Dropout
  import opened Params
  import opened Lookup
  import opened Scan
  import opened Attention
  import opened Cond
  import opened CondInputs

  /** The sequences of the scan, one entry per target step: the mask, `state_below_` and `state_belowx`. */
  datatype CondSeqs = CondSeqs(mask: seq<real>, x: seq<Vector>, xx: seq<Vector>)

  predicate CondSeqsFit(s: CondSeqs, p: GruCondParams, src: Source, dim: nat, ctxDim: nat) {
    && |s.x| == |s.mask| && |s.xx| == |s.mask| && RowsOf(s.x, 2 * dim) && RowsOf(s.xx, dim)
    && ctxDim > 0 && GruCondShapes(p, dim, ctxDim) && SourceShaped(src, ctxDim)
  }

  /** The step at time `t` on the carried `(h_, ctx_, alpha_)`. */
  function CondStepAt(act: Act, s: CondSeqs, p: GruCondParams, src: Source, ctxDim: nat, t: nat, st: CondOut)
    : (r: CondOut)
    requires ExpPositive(act) && CondSeqsFit(s, p, src, |st.h|, ctxDim) && t < |s.mask|
    ensures |r.h| == |st.h| && Aligned(r.ctx, r.alpha, src, ctxDim)
    ensures s.mask[t] == 0.0 ==> r.h == st.h
  {
    GruCondStep(act, s.mask[t], s.x[t], s.xx[t], st.h, Some(st.ctx), Some(st.alpha), src, p, ctxDim)
  }

  /** The step as the scan calls it; a state of another width is never reached. */
  function CondStepFn(act: Act, s: CondSeqs, p: GruCondParams, src: Source, ctxDim: nat, dim: nat)
    : (nat, CondOut) -> CondOut
    requires ExpPositive(act)
  {
    (t: nat, st: CondOut) =>
      if t < |s.mask| && |st.h| == dim && CondSeqsFit(s, p, src, dim, ctxDim) then CondStepAt(act, s, p, src, ctxDim, t, st)
      else st
  }

  predicate HiddenWidth(outs: seq<CondOut>, dim: nat) {
    forall t :: 0 <= t < |outs| ==> |outs[t].h| == dim
  }

  /** `theano.scan` of the step from `(init_state, 0, 0)`, one result triple per target step. */
  function GruCondScan(act: Act, s: CondSeqs, p: GruCondParams, src: Source, ctxDim: nat, st0: CondOut)
    : (r: seq<CondOut>)
    requires ExpPositive(act) && CondSeqsFit(s, p, src, |st0.h|, ctxDim)
    ensures |r| == |s.mask| && HiddenWidth(r, |st0.h|)
  {
    CondScanWidth(act, s, p, src, ctxDim, st0);
    Outputs(CondStepFn(act, s, p, src, ctxDim, |st0.h|), st0, |s.mask|)
  }

  lemma CondScanWidth(act: Act, s: CondSeqs, p: GruCondParams, src: Source, ctxDim: nat, st0: CondOut)
    requires ExpPositive(act) && CondSeqsFit(s, p, src, |st0.h|, ctxDim)
    ensures HiddenWidth(Outputs(CondStepFn(act, s, p, src, ctxDim, |st0.h|), st0, |s.mask|), |st0.h|)
  {
    var dim := |st0.h|;
    OutputsKeep(CondStepFn(act, s, p, src, ctxDim, dim), st0, |s.mask|, (st: CondOut) => |st.h| == dim);
  }

  /** The triple at `t` is the step at `t` on the triple at `t − 1`, or on the initial triple at 0. */
  lemma GruCondScanStepwise(act: Act, s: CondSeqs, p: GruCondParams, src: Source, ctxDim: nat, st0: CondOut, t: nat)
    requires ExpPositive(act) && CondSeqsFit(s, p, src, |st0.h|, ctxDim) && t < |s.mask|
    ensures var r := GruCondScan(act, s, p, src, ctxDim, st0);
      |Before(r, st0, t).h| == |st0.h| && r[t] == CondStepAt(act, s, p, src, ctxDim, t, Before(r, st0, t))
  {
    var f := CondStepFn(act, s, p, src, ctxDim, |st0.h|);
    CondScanWidth(act, s, p, src, ctxDim, st0);
    OutputsStepwise(f, st0, |s.mask|);
    var r := Outputs(f, st0, |s.mask|);
    assert r[t] == f(t, Before(r, st0, t));
  }

  /** Every step's context vector and alignment satisfy what the attention promises. */
  lemma GruCondScanAligned(act: Act, s: CondSeqs, p: GruCondParams, src: Source, ctxDim: nat, st0: CondOut)
    requires ExpPositive(act) && CondSeqsFit(s, p, src, |st0.h|, ctxDim)
    ensures var r := GruCondScan(act, s, p, src, ctxDim, st0);
      forall t :: 0 <= t < |s.mask| ==> Aligned(r[t].ctx, r[t].alpha, src, ctxDim)
  {
    forall t | 0 <= t < |s.mask| {
      GruCondScanStepwise(act, s, p, src, ctxDim, st0, t);
    }
  }

  /** Rows whose mask is 0 throughout keep the initial state. */
  lemma GruCondScanFreeze(act: Act, s: CondSeqs, p: GruCondParams, src: Source, ctxDim: nat, st0: CondOut)
    requires ExpPositive(act) && CondSeqsFit(s, p, src, |st0.h|, ctxDim)
    requires forall t :: 0 <= t < |s.mask| ==> s.mask[t] == 0.0
    ensures forall t :: 0 <= t < |s.mask| ==> GruCondScan(act, s, p, src, ctxDim, st0)[t].h == st0.h
  {
    var dim := |st0.h|;
    OutputsKeep(CondStepFn(act, s, p, src, ctxDim, dim), st0, |s.mask|, (st: CondOut) => st.h == st0.h);
  }

  /** The weights `gru_cond_layer` reads from `P`. */
  datatype GruCondLayerParams = GruCondLayerParams(WcAtt: Matrix, bAtt: Vector, Wx: Matrix, bx: Vector, W: Matrix,
                                                   b: Vector, step: GruCondParams)

  /** Every array `gru_cond_layer` reads is in `P`, with the rank it is used at. */
  predicate GruCondLayerFound(params: ParamSet, prefix: string, layer: nat) {
    && GetMat(params, LayerKey(prefix, Wcx, layer)).Ok? && GetMat(params, LayerKey(prefix, WcAtt, layer)).Ok?
    && GetVec(params, LayerKey(prefix, BAtt, layer)).Ok? && GetMat(params, LayerKey(prefix, Wx, layer)).Ok?
    && GetVec(params, LayerKey(prefix, Bx, layer)).Ok? && GetMat(params, LayerKey(prefix, W, layer)).Ok?
    && GetVec(params, LayerKey(prefix, B, layer)).Ok? && GetMat(params, LayerKey(prefix, U, layer)).Ok?
    && GetMat(params, LayerKey(prefix, Wc, layer)).Ok? && GetMat(params, LayerKey(prefix, WCombAtt, layer)).Ok?
    && GetMat(params, LayerKey(prefix, UAtt, layer)).Ok? && GetVec(params, LayerKey(prefix, CTt, layer)).Ok?
    && GetMat(params, LayerKey(prefix, Ux, layer)).Ok? && GetMat(params, LayerKey(prefix, Unl, layer)).Ok?
    && GetMat(params, LayerKey(prefix, Uxnl, layer)).Ok? && GetVec(params, LayerKey(prefix, Bnl, layer)).Ok?
    && GetVec(params, LayerKey(prefix, Bxnl, layer)).Ok?
  }

  /** Each weight of `p` is the array `P` holds under its name. */
  predicate GruCondLayerHolds(params: ParamSet, prefix: string, layer: nat, p: GruCondLayerParams) {
    && GetMat(params, LayerKey(prefix, WcAtt, layer)) == Ok(p.WcAtt) && GetVec(params, LayerKey(prefix, BAtt, layer)) == Ok(p.bAtt)
    && GetMat(params, LayerKey(prefix, Wx, layer)) == Ok(p.Wx) && GetVec(params, LayerKey(prefix, Bx, layer)) == Ok(p.bx)
    && GetMat(params, LayerKey(prefix, W, layer)) == Ok(p.W) && GetVec(params, LayerKey(prefix, B, layer)) == Ok(p.b)
    && GetMat(params, LayerKey(prefix, U, layer)) == Ok(p.step.U) && GetMat(params, LayerKey(prefix, Ux, layer)) == Ok(p.step.Ux)
    && GetMat(params, LayerKey(prefix, WCombAtt, layer)) == Ok(p.step.att.WComb)
    && GetMat(params, LayerKey(prefix, UAtt, layer)) == Ok(p.step.att.Uatt)
    && GetVec(params, LayerKey(prefix, CTt, layer)) == Ok(p.step.att.cTt)
    && GetMat(params, LayerKey(prefix, Unl, layer)) == Ok(p.step.second.Unl)
    && GetVec(params, LayerKey(prefix, Bnl, layer)) == Ok(p.step.second.bnl)
    && GetMat(params, LayerKey(prefix, Wc, layer)) == Ok(p.step.second.Wc)
    && GetMat(params, LayerKey(prefix, Uxnl, layer)) == Ok(p.step.second.Uxnl)
    && GetVec(params, LayerKey(prefix, Bxnl, layer)) == Ok(p.step.second.bxnl)
    && GetMat(params, LayerKey(prefix, Wcx, layer)) == Ok(p.step.second.Wcx)
  }

  /**
   * The lookups of `gru_cond_layer`, in its order: `Wcx` (for `dim`), `Wc_att`, `b_att`, `Wx`,
   * `bx`, `W`, `b`, then the shared `U`, `Wc`, `W_comb_att`, `U_att`, `c_tt`, `Ux`, `Wcx`,
   * `U_nl`, `Ux_nl`, `b_nl`, `bx_nl`.
   */
  function GruCondLayerParamsOf(params: ParamSet, prefix: string, layer: nat): (r: Result<GruCondLayerParams, LayerError>)
    ensures GetMat(params, LayerKey(prefix, Wcx, layer)).Err? ==> r == Err(GetMat(params, LayerKey(prefix, Wcx, layer)).error)
    ensures r.Ok? <==> GruCondLayerFound(params, prefix, layer)
    ensures r.Ok? ==> GruCondLayerHolds(params, prefix, layer, r.value)
  {
    var dimSource :- GetMat(params, LayerKey(prefix, Wcx, layer));
    var attW :- GetMat(params, LayerKey(prefix, WcAtt, layer));
    var attB :- GetVec(params, LayerKey(prefix, BAtt, layer));
    var candW :- GetMat(params, LayerKey(prefix, Wx, layer));
    var candB :- GetVec(params, LayerKey(prefix, Bx, layer));
    var gateW :- GetMat(params, LayerKey(prefix, W, layer));
    var gateB :- GetVec(params, LayerKey(prefix, B, layer));
    var rec :- GetMat(params, LayerKey(prefix, U, layer));
    var ctxW :- GetMat(params, LayerKey(prefix, Wc, layer));
    var comb :- GetMat(params, LayerKey(prefix, WCombAtt, layer));
    var score :- GetMat(params, LayerKey(prefix, UAtt, layer));
    var scoreB :- GetVec(params, LayerKey(prefix, CTt, layer));
    var recX :- GetMat(params, LayerKey(prefix, Ux, layer));
    // `Wcx` is read a second time here; that read finds the array read first.
    var ctxWx := dimSource;
    var recNl :- GetMat(params, LayerKey(prefix, Unl, layer));
    var recXNl :- GetMat(params, LayerKey(prefix, Uxnl, layer));
    var gateBNl :- GetVec(params, LayerKey(prefix, Bnl, layer));
    var candBNl :- GetVec(params, LayerKey(prefix, Bxnl, layer));
    Ok(GruCondLayerParams(attW, attB, candW, candB, gateW, gateB,
                          GruCondParams(rec, recX, AttentionParams(comb, score, scoreB),
                                        SecondStage(recNl, gateBNl, ctxW, recXNl, candBNl, ctxWx))))
  }

  /**
   * The shapes under which the graph of `gru_cond_layer` computes: annotations of the width of
   * `Wc_att`, input rows of `nin` entries, a state of `dim`.
   */
  predicate GruCondLayerFits(p: GruCondLayerParams, xs: seq<Vector>, mask: seq<real>, annotations: seq<Vector>,
                             ctxMask: Option<Vector>, h0: Vector) {
    var dim := |h0|;
    && SourceFits(annotations, p.WcAtt, p.bAtt, ctxMask)
    && RowsOf(xs, |p.W|) && IsMatrix(p.W, |p.W|, 2 * dim) && |p.b| == 2 * dim
    && IsMatrix(p.Wx, |p.W|, dim) && |p.bx| == dim && |mask| == |xs|
    && GruCondShapes(p.step, dim, |p.WcAtt|)
  }

  /** The scan's sequences: the mask and the two input projections. */
  function GruCondLayerSeqs(p: GruCondLayerParams, xs: seq<Vector>, mask: seq<real>, annotations: seq<Vector>,
                            ctxMask: Option<Vector>, h0: Vector): (r: CondSeqs)
    requires GruCondLayerFits(p, xs, mask, annotations, ctxMask, h0)
    ensures r.mask == mask && |r.x| == |xs| && |r.xx| == |xs|
    ensures forall t :: 0 <= t < |xs| ==> r.x[t] == Add(VecMat(xs[t], p.W, 2 * |h0|), p.b)
    ensures forall t :: 0 <= t < |xs| ==> r.xx[t] == Add(VecMat(xs[t], p.Wx, |h0|), p.bx)
  {
    CondSeqs(mask, Project(xs, p.W, p.b), Project(xs, p.Wx, p.bx))
  }

  /** Fitting arguments give a scan whose every precondition holds. */
  lemma LayerSeqsFit(act: Act, p: GruCondLayerParams, xs: seq<Vector>, mask: seq<real>, annotations: seq<Vector>,
                     ctxMask: Option<Vector>, h0: Vector)
    requires ExpPositive(act) && MaskLive(ctxMask) && GruCondLayerFits(p, xs, mask, annotations, ctxMask, h0)
    ensures CondSeqsFit(GruCondLayerSeqs(p, xs, mask, annotations, ctxMask, h0), p.step,
                        SourceOf(annotations, p.WcAtt, p.bAtt, ctxMask), |h0|, |p.WcAtt|)
  {
    SourceOfOk(act, annotations, p.WcAtt, p.bAtt, ctxMask);
  }

  /** The scan's first triple: `init_state`, `ctxdim` zeros and one zero per source position. */
  function InitTriple(h0: Vector, ctxDim: nat, sourceLen: nat): CondOut {
    CondOut(h0, Zeros(ctxDim), Zeros(sourceLen))
  }

  /** `gru_cond_layer` over a whole target sequence (`one_step` false). */
  function GruCondLayer(act: Act, params: ParamSet, prefix: string, layer: nat, xs: seq<Vector>,
                        mask: Option<seq<real>>, context: Option<ContextArg>, initState: Option<Vector>,
                        contextMask: Option<Vector>, dropout: Option<DropoutParams>): (r: Result<CondLayerOut, LayerError>)
    requires ExpPositive(act) && MaskLive(contextMask)
    ensures CheckContext(context).Err? ==> r == Err(CheckContext(context).error)
    ensures r.Ok? ==> |r.value.output| == |xs| && |r.value.contexts| == |xs| && |r.value.alphas| == |xs|
    ensures r.Ok? ==> |r.value.hiddenWithoutDropout| == |xs|
    ensures r.Ok? && dropout.None? ==> r.value.output == r.value.hiddenWithoutDropout
  {
    var annotations :- CheckContext(context);
    var p :- GruCondLayerParamsOf(params, prefix, layer);
    var ms := MaskOrOnes(mask, |xs|);
    var h0 := StateOrZeros(initState, Cols(p.step.second.Wcx));
    if !GruCondLayerFits(p, xs, ms, annotations, contextMask, h0) then Err(ShapeMismatch)
    else
      LayerSeqsFit(act, p, xs, ms, annotations, contextMask, h0);
      var outs := GruCondScan(act, GruCondLayerSeqs(p, xs, ms, annotations, contextMask, h0), p.step,
                              SourceOf(annotations, p.WcAtt, p.bAtt, contextMask), |p.WcAtt|,
                              InitTriple(h0, |p.WcAtt|, |annotations|));
      Ok(SplitCond(outs, dropout))
  }

  /** `gru_cond_layer` with `one_step`: the step called once, with `None` for the carried context and alignment. */
  function GruCondLayerOneStep(act: Act, params: ParamSet, prefix: string, layer: nat, x: Vector, mask: Option<real>,
                               context: Option<ContextArg>, initState: Option<Vector>, contextMask: Option<Vector>,
                               dropout: Option<DropoutParams>): (r: Result<CondStepOut, LayerError>)
    requires ExpPositive(act) && MaskLive(contextMask)
    ensures CheckOneStep(context, initState).Err? ==> r == Err(CheckOneStep(context, initState).error)
    ensures r.Ok? && mask == Some(0.0) ==> r.value.hiddenWithoutDropout == initState.value
    ensures r.Ok? && dropout.None? ==> r.value.output == r.value.hiddenWithoutDropout
  {
    var annotations :- CheckOneStep(context, initState);
    var p :- GruCondLayerParamsOf(params, prefix, layer);
    var m := if mask.Some? then mask.value else 1.0;
    var h0 := initState.value;
    if !GruCondLayerFits(p, [x], [m], annotations, contextMask, h0) then Err(ShapeMismatch)
    else
      LayerSeqsFit(act, p, [x], [m], annotations, contextMask, h0);
      var s := GruCondLayerSeqs(p, [x], [m], annotations, contextMask, h0);
      var out := GruCondStep(act, m, s.x[0], s.xx[0], h0, None, None, SourceOf(annotations, p.WcAtt, p.bAtt, contextMask),
                             p.step, |p.WcAtt|);
      Ok(SplitCondStep(out, dropout))
  }

  /**
   * Every step's alignment has one weight per source position, sums to 1 when there is a source
   * position, is 0 wherever `context_mask` is 0, and its context vector is the weighted sum of
   * the annotations.
   */
  lemma GruCondLayerAligned(act: Act, params: ParamSet, prefix: string, layer: nat, xs: seq<Vector>,
                            mask: Option<seq<real>>, annotations: seq<Vector>, initState: Option<Vector>,
                            contextMask: Option<Vector>, dropout: Option<DropoutParams>)
    requires ExpPositive(act) && MaskLive(contextMask)
    requires GruCondLayer(act, params, prefix, layer, xs, mask, Some(ContextArg(3, annotations)), initState, contextMask, dropout).Ok?
    ensures var out := GruCondLayer(act, params, prefix, layer, xs, mask, Some(ContextArg(3, annotations)), initState,
                                    contextMask, dropout).value;
      forall t :: 0 <= t < |xs| ==>
        && |out.alphas[t]| == |annotations|
        && (|annotations| > 0 ==> Sum(out.alphas[t]) == 1.0)
        && (contextMask.Some? ==> forall s :: 0 <= s < |annotations| && contextMask.value[s] == 0.0 ==> out.alphas[t][s] == 0.0)
        && RowsOf(annotations, |out.contexts[t]|)
        && out.contexts[t] == VecMat(out.alphas[t], annotations, |out.contexts[t]|)
  {
    var p := GruCondLayerParamsOf(params, prefix, layer).value;
    var ms := MaskOrOnes(mask, |xs|);
    var h0 := StateOrZeros(initState, Cols(p.step.second.Wcx));
    LayerSeqsFit(act, p, xs, ms, annotations, contextMask, h0);
    GruCondScanAligned(act, GruCondLayerSeqs(p, xs, ms, annotations, contextMask, h0), p.step,
                       SourceOf(annotations, p.WcAtt, p.bAtt, contextMask), |p.WcAtt|,
                       InitTriple(h0, |p.WcAtt|, |annotations|));
  }

  /** A target row whose mask is 0 at every step keeps its initial state throughout. */
  lemma GruCondLayerFreeze(act: Act, params: ParamSet, prefix: string, layer: nat, xs: seq<Vector>, mask: seq<real>,
                           context: Option<ContextArg>, h0: Vector, contextMask: Option<Vector>,
                           dropout: Option<DropoutParams>)
    requires ExpPositive(act) && MaskLive(contextMask)
    requires forall t :: 0 <= t < |mask| ==> mask[t] == 0.0
    requires GruCondLayer(act, params, prefix, layer, xs, Some(mask), context, Some(h0), contextMask, dropout).Ok?
    ensures var hs := GruCondLayer(act, params, prefix, layer, xs, Some(mask), context, Some(h0), contextMask,
                                   dropout).value.hiddenWithoutDropout;
      forall t :: 0 <= t < |hs| ==> hs[t] == h0
  {
    var annotations := context.value.annotations;
    var p := GruCondLayerParamsOf(params, prefix, layer).value;
    LayerSeqsFit(act, p, xs, mask, annotations, contextMask, h0);
    GruCondScanFreeze(act, GruCondLayerSeqs(p, xs, mask, annotations, contextMask, h0), p.step,
                      SourceOf(annotations, p.WcAtt, p.bAtt, contextMask), |p.WcAtt|,
                      InitTriple(h0, |p.WcAtt|, |annotations|));
  }

  /**
   * One step of the scan as a one-step call: the inputs at `t` and the state before `t` give
   * the scan's state, context vector and alignment at `t`.
   */
  lemma GruCondOneStepAt(act: Act, params: ParamSet, prefix: string, layer: nat, xs: seq<Vector>,
                         mask: Option<seq<real>>, context: Option<ContextArg>, h0: Vector, contextMask: Option<Vector>,
                         t: nat)
    requires ExpPositive(act) && MaskLive(contextMask)
    requires GruCondLayer(act, params, prefix, layer, xs, mask, context, Some(h0), contextMask, None).Ok? && t < |xs|
    ensures var out := GruCondLayer(act, params, prefix, layer, xs, mask, context, Some(h0), contextMask, None).value;
      GruCondLayerOneStep(act, params, prefix, layer, xs[t], Some(MaskOrOnes(mask, |xs|)[t]), context,
                          Some(if t == 0 then h0 else out.hiddenWithoutDropout[t - 1]), contextMask, None)
      == Ok(CondStepOut(out.hiddenWithoutDropout[t], out.contexts[t], out.alphas[t], out.hiddenWithoutDropout[t]))
  {
    var annotations := context.value.annotations;
    var p := GruCondLayerParamsOf(params, prefix, layer).value;
    var ms := MaskOrOnes(mask, |xs|);
    var src := SourceOf(annotations, p.WcAtt, p.bAtt, contextMask);
    var ctxDim := |p.WcAtt|;
    LayerSeqsFit(act, p, xs, ms, annotations, contextMask, h0);
    var s := GruCondLayerSeqs(p, xs, ms, annotations, contextMask, h0);
    var st0 := InitTriple(h0, ctxDim, |annotations|);
    var outs := GruCondScan(act, s, p.step, src, ctxDim, st0);
    var prev := Before(outs, st0, t);
    GruCondScanStepwise(act, s, p.step, src, ctxDim, st0, t);
    assert prev.h == if t == 0 then h0 else SplitCond(outs, None).hiddenWithoutDropout[t - 1];
    SingleStepAgrees(act, p, xs, ms, annotations, contextMask, h0, t, prev);
  }

  /** The step at `t` of the scan is the one-step call on the inputs of time `t`, whatever `ctx_` and `alpha_` it carries. */
  lemma SingleStepAgrees(act: Act, p: GruCondLayerParams, xs: seq<Vector>, ms: seq<real>, annotations: seq<Vector>,
                         contextMask: Option<Vector>, h0: Vector, t: nat, prev: CondOut)
    requires ExpPositive(act) && MaskLive(contextMask) && GruCondLayerFits(p, xs, ms, annotations, contextMask, h0)
    requires t < |xs| && |prev.h| == |h0|
    ensures GruCondLayerFits(p, [xs[t]], [ms[t]], annotations, contextMask, prev.h)
    ensures var src := SourceOf(annotations, p.WcAtt, p.bAtt, contextMask);
      var s1 := GruCondLayerSeqs(p, [xs[t]], [ms[t]], annotations, contextMask, prev.h);
      CondSeqsFit(s1, p.step, src, |prev.h|, |p.WcAtt|)
      && GruCondStep(act, ms[t], s1.x[0], s1.xx[0], prev.h, None, None, src, p.step, |p.WcAtt|)
         == CondStepAt(act, GruCondLayerSeqs(p, xs, ms, annotations, contextMask, h0), p.step, src, |p.WcAtt|, t, prev)
  {
    var src := SourceOf(annotations, p.WcAtt, p.bAtt, contextMask);
    var s := GruCondLayerSeqs(p, xs, ms, annotations, contextMask, h0);
    LayerSeqsFit(act, p, xs, ms, annotations, contextMask, h0);
    assert GruCondLayerFits(p, [xs[t]], [ms[t]], annotations, contextMask, prev.h);
    LayerSeqsFit(act, p, [xs[t]], [ms[t]], annotations, contextMask, prev.h);
    var s1 := GruCondLayerSeqs(p, [xs[t]], [ms[t]], annotations, contextMask, prev.h);
    assert s1.x[0] == s.x[t] && s1.xx[0] == s.xx[t];
    GruCondStepIgnoresCarried(act, ms[t], s.x[t], s.xx[t], prev.h, Some(prev.ctx), Some(prev.alpha), src, p.step, |p.WcAtt|);
  }

  /** Chained one-step calls, each fed the previous state, reproduce the scan's three sequences. */
  lemma GruCondOneStepsReplayScan(act: Act, params: ParamSet, prefix: string, layer: nat, xs: seq<Vector>,
                                  mask: Option<seq<real>>, context: Option<ContextArg>, h0: Vector,
                                  contextMask: Option<Vector>)
    requires ExpPositive(act) && MaskLive(contextMask)
    requires GruCondLayer(act, params, prefix, layer, xs, mask, context, Some(h0), contextMask, None).Ok?
    ensures var out := GruCondLayer(act, params, prefix, layer, xs, mask, context, Some(h0), contextMask, None).value;
      forall t :: 0 <= t < |xs| ==>
        GruCondLayerOneStep(act, params, prefix, layer, xs[t], Some(MaskOrOnes(mask, |xs|)[t]), context,
                            Some(if t == 0 then h0 else out.hiddenWithoutDropout[t - 1]), contextMask, None)
        == Ok(CondStepOut(out.hiddenWithoutDropout[t], out.contexts[t], out.alphas[t], out.hiddenWithoutDropout[t]))
  {
    forall t | 0 <= t < |xs| {
      GruCondOneStepAt(act, params, prefix, layer, xs, mask, context, h0, contextMask, t);
    }
  }

  /** The schema `param_init_gru_cond` writes when the `*_nonlin` sizes are left at `nin` and `dim`. */
  function GruCondSchema(prefix: string, nin: nat, dim: nat, dimctx: nat, layer: nat): Schema {
    GruCondInto(map[], prefix, nin, dim, dimctx, nin, dim, layer)
  }

  /** On a `P` that `param_init_gru_cond` filled, every lookup of `gru_cond_layer` finds an array of the configured shape. */
  lemma GruCondLayerParamsConform(params: ParamSet, prefix: string, nin: nat, dim: nat, dimctx: nat, layer: nat)
    requires Conforms(params, GruCondSchema(prefix, nin, dim, dimctx, layer))
    ensures var r := GruCondLayerParamsOf(params, prefix, layer);
      && r.Ok? && IsMatrix(r.value.WcAtt, dimctx, dimctx) && |r.value.bAtt| == dimctx
      && IsMatrix(r.value.W, nin, 2 * dim) && |r.value.b| == 2 * dim && IsMatrix(r.value.Wx, nin, dim) && |r.value.bx| == dim
      && GruCondShapes(r.value.step, dim, dimctx)
  {
    InputLookupsConform(params, prefix, nin, dim, dimctx, layer);
    SharedLookupsConform(params, prefix, nin, dim, dimctx, layer);
  }

  /** The lookups before the scan's shared variables: `Wcx`, `Wc_att`, `b_att`, `Wx`, `bx`, `W`, `b`. */
  lemma InputLookupsConform(params: ParamSet, prefix: string, nin: nat, dim: nat, dimctx: nat, layer: nat)
    requires Conforms(params, GruCondSchema(prefix, nin, dim, dimctx, layer))
    ensures
      && GetMat(params, LayerKey(prefix, Wcx, layer)).Ok? && IsMatrix(GetMat(params, LayerKey(prefix, Wcx, layer)).value, dimctx, dim)
      && GetMat(params, LayerKey(prefix, WcAtt, layer)).Ok? && IsMatrix(GetMat(params, LayerKey(prefix, WcAtt, layer)).value, dimctx, dimctx)
      && GetVec(params, LayerKey(prefix, BAtt, layer)).Ok? && |GetVec(params, LayerKey(prefix, BAtt, layer)).value| == dimctx
      && GetMat(params, LayerKey(prefix, Wx, layer)).Ok? && IsMatrix(GetMat(params, LayerKey(prefix, Wx, layer)).value, nin, dim)
      && GetVec(params, LayerKey(prefix, Bx, layer)).Ok? && |GetVec(params, LayerKey(prefix, Bx, layer)).value| == dim
      && GetMat(params, LayerKey(prefix, W, layer)).Ok? && IsMatrix(GetMat(params, LayerKey(prefix, W, layer)).value, nin, 2 * dim)
      && GetVec(params, LayerKey(prefix, B, layer)).Ok? && |GetVec(params, LayerKey(prefix, B, layer)).value| == 2 * dim
  {
    var s := GruCondSchema(prefix, nin, dim, dimctx, layer);
    GetMatConforms(params, s, LayerKey(prefix, Wcx, layer), dimctx, dim);
    GetMatConforms(params, s, LayerKey(prefix, WcAtt, layer), dimctx, dimctx);
    GetVecConforms(params, s, LayerKey(prefix, BAtt, layer), dimctx);
    GetMatConforms(params, s, LayerKey(prefix, Wx, layer), nin, dim);
    GetVecConforms(params, s, LayerKey(prefix, Bx, layer), dim);
    GetMatConforms(params, s, LayerKey(prefix, W, layer), nin, 2 * dim);
    GetVecConforms(params, s, LayerKey(prefix, B, layer), 2 * dim);
  }

  /** The lookups of the scan's shared variables. */
  lemma SharedLookupsConform(params: ParamSet, prefix: string, nin: nat, dim: nat, dimctx: nat, layer: nat)
    requires Conforms(params, GruCondSchema(prefix, nin, dim, dimctx, layer))
    ensures
      && GetMat(params, LayerKey(prefix, U, layer)).Ok? && IsMatrix(GetMat(params, LayerKey(prefix, U, layer)).value, dim, 2 * dim)
      && GetMat(params, LayerKey(prefix, Wc, layer)).Ok? && IsMatrix(GetMat(params, LayerKey(prefix, Wc, layer)).value, dimctx, 2 * dim)
      && GetMat(params, LayerKey(prefix, WCombAtt, layer)).Ok? && IsMatrix(GetMat(params, LayerKey(prefix, WCombAtt, layer)).value, dim, dimctx)
      && GetMat(params, LayerKey(prefix, UAtt, layer)).Ok? && IsMatrix(GetMat(params, LayerKey(prefix, UAtt, layer)).value, dimctx, 1)
      && GetVec(params, LayerKey(prefix, CTt, layer)).Ok? && |GetVec(params, LayerKey(prefix, CTt, layer)).value| == 1
      && GetMat(params, LayerKey(prefix, Ux, layer)).Ok? && IsMatrix(GetMat(params, LayerKey(prefix, Ux, layer)).value, dim, dim)
      && GetMat(params, LayerKey(prefix, Unl, layer)).Ok? && IsMatrix(GetMat(params, LayerKey(prefix, Unl, layer)).value, dim, 2 * dim)
      && GetMat(params, LayerKey(prefix, Uxnl, layer)).Ok? && IsMatrix(GetMat(params, LayerKey(prefix, Uxnl, layer)).value, dim, dim)
      && GetVec(params, LayerKey(prefix, Bnl, layer)).Ok? && |GetVec(params, LayerKey(prefix, Bnl, layer)).value| == 2 * dim
      && GetVec(params, LayerKey(prefix, Bxnl, layer)).Ok? && |GetVec(params, LayerKey(prefix, Bxnl, layer)).value| == dim
  {
    var s := GruCondSchema(prefix, nin, dim, dimctx, layer);
    GetMatConforms(params, s, LayerKey(prefix, U, layer), dim, 2 * dim);
    GetMatConforms(params, s, LayerKey(prefix, Wc, layer), dimctx, 2 * dim);
    GetMatConforms(params, s, LayerKey(prefix, WCombAtt, layer), dim, dimctx);
    GetMatConforms(params, s, LayerKey(prefix, UAtt, layer), dimctx, 1);
    GetVecConforms(params, s, LayerKey(prefix, CTt, layer), 1);
    GetMatConforms(params, s, LayerKey(prefix, Ux, layer), dim, dim);
    GetMatConforms(params, s, LayerKey(prefix, Unl, layer), dim, 2 * dim);
    GetMatConforms(params, s, LayerKey(prefix, Uxnl, layer), dim, dim);
    GetVecConforms(params, s, LayerKey(prefix, Bnl, layer), 2 * dim);
    GetVecConforms(params, s, LayerKey(prefix, Bxnl, layer), dim);
  }

  /**
   * On a `P` that `param_init_gru_cond` filled, `gru_cond_layer` computes for every input of the
   * configured widths and every 3-axis context of `dimctx`-wide annotations.
   */
  lemma GruCondLayerSucceeds(act: Act, params: ParamSet, prefix: string, nin: nat, dim: nat, dimctx: nat, layer: nat,
                             xs: seq<Vector>, mask: Option<seq<real>>, annotations: seq<Vector>,
                             initState: Option<Vector>, contextMask: Option<Vector>, dropout: Option<DropoutParams>)
    requires ExpPositive(act) && MaskLive(contextMask)
    requires Conforms(params, GruCondSchema(prefix, nin, dim, dimctx, layer)) && dimctx > 0
    requires RowsOf(xs, nin) && (mask.Some? ==> |mask.value| == |xs|) && (initState.Some? ==> |initState.value| == dim)
    requires RowsOf(annotations, dimctx) && (contextMask.Some? ==> |contextMask.value| == |annotations|)
    ensures GruCondLayer(act, params, prefix, layer, xs, mask, Some(ContextArg(3, annotations)), initState, contextMask,
                         dropout).Ok?
  {
    GruCondLayerParamsConform(params, prefix, nin, dim, dimctx, layer);
    var p := GruCondLayerParamsOf(params, prefix, layer).value;
    ColsOf(p.step.second.Wcx, dimctx, dim);
    var ms := MaskOrOnes(mask, |xs|);
    var h0 := StateOrZeros(initState, Cols(p.step.second.Wcx));
    FitsOfShapes(p, nin, dim, dimctx, xs, ms, annotations, contextMask, h0);
    GruCondLayerOk(act, params, prefix, layer, xs, mask, Some(ContextArg(3, annotations)), initState, contextMask, dropout);
  }

  /** Past the checks and the lookups, the driver fails only on shapes. */
  lemma GruCondLayerOk(act: Act, params: ParamSet, prefix: string, layer: nat, xs: seq<Vector>,
                       mask: Option<seq<real>>, context: Option<ContextArg>, initState: Option<Vector>,
                       contextMask: Option<Vector>, dropout: Option<DropoutParams>)
    requires ExpPositive(act) && MaskLive(contextMask)
    requires CheckContext(context).Ok? && GruCondLayerParamsOf(params, prefix, layer).Ok?
    ensures var p := GruCondLayerParamsOf(params, prefix, layer).value;
      GruCondLayer(act, params, prefix, layer, xs, mask, context, initState, contextMask, dropout).Ok?
      <==> GruCondLayerFits(p, xs, MaskOrOnes(mask, |xs|), context.value.annotations, contextMask,
                            StateOrZeros(initState, Cols(p.step.second.Wcx)))
  {
  }

  lemma FitsOfShapes(p: GruCondLayerParams, nin: nat, dim: nat, dimctx: nat, xs: seq<Vector>, ms: seq<real>,
                     annotations: seq<Vector>, contextMask: Option<Vector>, h0: Vector)
    requires IsMatrix(p.WcAtt, dimctx, dimctx) && |p.bAtt| == dimctx && dimctx > 0
    requires IsMatrix(p.W, nin, 2 * dim) && |p.b| == 2 * dim && IsMatrix(p.Wx, nin, dim) && |p.bx| == dim
    requires GruCondShapes(p.step, dim, dimctx)
    requires RowsOf(xs, nin) && |ms| == |xs| && |h0| == dim
    requires RowsOf(annotations, dimctx) && (contextMask.Some? ==> |contextMask.value| == |annotations|)
    ensures GruCondLayerFits(p, xs, ms, annotations, contextMask, h0)
  {
  }

  /** A missing target mask is all ones and a missing initial state is `dim` zeros, `dim` being the width of `Wcx`. */
  lemma GruCondLayerDefaults(act: Act, params: ParamSet, prefix: string, nin: nat, dim: nat, dimctx: nat, layer: nat,
                             xs: seq<Vector>, context: Option<ContextArg>, contextMask: Option<Vector>,
                             dropout: Option<DropoutParams>)
    requires ExpPositive(act) && MaskLive(contextMask)
    requires Conforms(params, GruCondSchema(prefix, nin, dim, dimctx, layer)) && dimctx > 0
    ensures GruCondLayer(act, params, prefix, layer, xs, None, context, None, contextMask, dropout)
         == GruCondLayer(act, params, prefix, layer, xs, Some(Ones(|xs|)), context, Some(Zeros(dim)), contextMask, dropout)
  {
    var s := GruCondSchema(prefix, nin, dim, dimctx, layer);
    GetMatConforms(params, s, LayerKey(prefix, Wcx, layer), dimctx, dim);
    ColsOf(GetMat(params, LayerKey(prefix, Wcx, layer)).value, dimctx, dim);
  }
}
