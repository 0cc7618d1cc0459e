/**
 * The driver `multi_gru_cond_layer`: the deep-in-time conditional step, with a stack of units in
 * each stage, scanned over the target side or called once.
 */
module MultiGruCondLayers {
  import opened Linalg
  import opened Activations
  import opened Wrappers
  import opened Dropout
  import opened Params
  import opened Lookup
  import opened Scan
  import opened Attention
  import opened Gru
  import opened MultiGru
  import opened Cond
  import opened MultiGruLayers
  import opened CondInputs

  /** `P[_p(prefix, role, layer_id, i)]` for `i` = 1 … `n` where a vector is used. */
  function GetUnitVecs(params: ParamSet, prefix: string, role: Role, layer: nat, n: nat): (r: Result<seq<Vector>, LayerError>)
    ensures r.Ok? <==> forall i :: 1 <= i <= n ==> GetVec(params, UnitKey(prefix, role, layer, i)).Ok?
    ensures r.Ok? ==> |r.value| == n && forall i :: 0 <= i < n ==> GetVec(params, UnitKey(prefix, role, layer, i + 1)) == Ok(r.value[i])
    decreases n
  {
    if n == 0 then Ok([])
    else
      var prev :- GetUnitVecs(params, prefix, role, layer, n - 1);
      var v :- GetVec(params, UnitKey(prefix, role, layer, n));
      Ok(prev + [v])
  }

  predicate VecsShaped(r: Result<seq<Vector>, LayerError>, n: nat, len: nat) {
    r.Ok? && |r.value| == n && forall i :: 0 <= i < n ==> |r.value[i]| == len
  }

  lemma GetUnitVecsConform(params: ParamSet, s: Schema, prefix: string, role: Role, layer: nat, n: nat, len: nat)
    requires Conforms(params, s)
    requires forall i :: 1 <= i <= n ==> UnitKey(prefix, role, layer, i) in s && s[UnitKey(prefix, role, layer, i)] == Vec(len)
    ensures VecsShaped(GetUnitVecs(params, prefix, role, layer, n), n, len)
  {
    var r := GetUnitVecs(params, prefix, role, layer, n);
    forall i | 1 <= i <= n
      ensures GetVec(params, UnitKey(prefix, role, layer, i)).Ok?
      ensures |GetVec(params, UnitKey(prefix, role, layer, i)).value| == len
    {
      GetVecConforms(params, s, UnitKey(prefix, role, layer, i), len);
    }
    assert r.Ok?;
    forall i | 0 <= i < n
      ensures |r.value[i]| == len
    {
      assert GetVec(params, UnitKey(prefix, role, layer, i + 1)) == Ok(r.value[i]);
    }
  }

  /** The sequences of the scan: the mask, then `state_belows[i]` and `state_belowxs[i]` (unit first, then step). */
  datatype MultiCondSeqs = MultiCondSeqs(mask: seq<real>, x: seq<seq<Vector>>, xx: seq<seq<Vector>>)

  /** The non-sequences: `U_i`, `Ux_i` of the first stage, the attention block, the second-stage units. */
  datatype MultiCondShared = MultiCondShared(U: seq<Matrix>, Ux: seq<Matrix>, att: AttentionParams, stages: seq<SecondStage>)

  predicate MultiCondSeqsFit(s: MultiCondSeqs, w: MultiCondShared, src: Source, dim: nat, ctxDim: nat) {
    var n := |w.U|;
    && n > 0 && |w.Ux| == n && |s.x| == n && |s.xx| == n && |w.stages| == n
    && (forall i :: 0 <= i < n ==>
          && |s.x[i]| == |s.mask| && |s.xx[i]| == |s.mask| && RowsOf(s.x[i], 2 * dim) && RowsOf(s.xx[i], dim)
          && IsMatrix(w.U[i], dim, 2 * dim) && IsMatrix(w.Ux[i], dim, dim))
    && ctxDim > 0 && StagesFit(w.stages, dim, ctxDim) && AttentionShapes(w.att, dim, ctxDim) && SourceShaped(src, ctxDim)
  }

  /** The first-stage units at step `t`. */
  function CondUnitsAt(s: MultiCondSeqs, w: MultiCondShared, src: Source, dim: nat, ctxDim: nat, t: nat): (r: seq<GruUnit>)
    requires MultiCondSeqsFit(s, w, src, dim, ctxDim) && t < |s.mask|
    ensures |r| == |w.U| && UnitsFit(r, dim)
    ensures forall i :: 0 <= i < |r| ==> r[i] == GruUnit(s.x[i][t], s.xx[i][t], w.U[i], w.Ux[i])
  {
    seq(|w.U|, i requires 0 <= i < |w.U| => GruUnit(s.x[i][t], s.xx[i][t], w.U[i], w.Ux[i]))
  }

  /** The step at time `t` on the carried `(h_, ctx_, alpha_)`. */
  function MultiCondStepAt(act: Act, s: MultiCondSeqs, w: MultiCondShared, src: Source, ctxDim: nat, t: nat, st: CondOut)
    : (r: CondOut)
    requires ExpPositive(act) && MultiCondSeqsFit(s, w, src, |st.h|, ctxDim) && t < |s.mask|
    ensures |r.h| == |st.h| && Aligned(r.ctx, r.alpha, src, ctxDim)
    ensures s.mask[t] == 0.0 ==> r.h == st.h
  {
    MultiGruCondStep(act, s.mask[t], CondUnitsAt(s, w, src, |st.h|, ctxDim, t), st.h, Some(st.ctx), Some(st.alpha), src,
                     w.att, w.stages, ctxDim)
  }

  function MultiCondStepFn(act: Act, s: MultiCondSeqs, w: MultiCondShared, src: Source, ctxDim: nat, dim: nat)
    : (nat, CondOut) -> CondOut
    requires ExpPositive(act)
  {
    (t: nat, st: CondOut) =>
      if t < |s.mask| && |st.h| == dim && MultiCondSeqsFit(s, w, src, dim, ctxDim) then
        MultiCondStepAt(act, s, w, src, ctxDim, t, st)
      else st
  }

  predicate HiddenWidth(outs: seq<CondOut>, dim: nat) {
    forall t :: 0 <= t < |outs| ==> |outs[t].h| == dim
  }

  /** `theano.scan` of the step from `(init_state, 0, 0)`. */
  function MultiCondScan(act: Act, s: MultiCondSeqs, w: MultiCondShared, src: Source, ctxDim: nat, st0: CondOut)
    : (r: seq<CondOut>)
    requires ExpPositive(act) && MultiCondSeqsFit(s, w, src, |st0.h|, ctxDim)
    ensures |r| == |s.mask| && HiddenWidth(r, |st0.h|)
  {
    MultiCondScanWidth(act, s, w, src, ctxDim, st0);
    Outputs(MultiCondStepFn(act, s, w, src, ctxDim, |st0.h|), st0, |s.mask|)
  }

  lemma MultiCondScanWidth(act: Act, s: MultiCondSeqs, w: MultiCondShared, src: Source, ctxDim: nat, st0: CondOut)
    requires ExpPositive(act) && MultiCondSeqsFit(s, w, src, |st0.h|, ctxDim)
    ensures HiddenWidth(Outputs(MultiCondStepFn(act, s, w, src, ctxDim, |st0.h|), st0, |s.mask|), |st0.h|)
  {
    var dim := |st0.h|;
    OutputsKeep(MultiCondStepFn(act, s, w, src, ctxDim, dim), st0, |s.mask|, (st: CondOut) => |st.h| == dim);
  }

  /** The triple at `t` is the step at `t` on the triple at `t − 1`, or on the initial triple at 0. */
  lemma MultiCondScanStepwise(act: Act, s: MultiCondSeqs, w: MultiCondShared, src: Source, ctxDim: nat, st0: CondOut,
                              t: nat)
    requires ExpPositive(act) && MultiCondSeqsFit(s, w, src, |st0.h|, ctxDim) && t < |s.mask|
    ensures var r := MultiCondScan(act, s, w, src, ctxDim, st0);
      |Before(r, st0, t).h| == |st0.h| && r[t] == MultiCondStepAt(act, s, w, src, ctxDim, t, Before(r, st0, t))
  {
    var f := MultiCondStepFn(act, s, w, src, ctxDim, |st0.h|);
    MultiCondScanWidth(act, s, w, src, ctxDim, st0);
    OutputsStepwise(f, st0, |s.mask|);
    var r := Outputs(f, st0, |s.mask|);
    assert r[t] == f(t, Before(r, st0, t));
  }

  lemma MultiCondScanAligned(act: Act, s: MultiCondSeqs, w: MultiCondShared, src: Source, ctxDim: nat, st0: CondOut)
    requires ExpPositive(act) && MultiCondSeqsFit(s, w, src, |st0.h|, ctxDim)
    ensures var r := MultiCondScan(act, s, w, src, ctxDim, st0);
      forall t :: 0 <= t < |s.mask| ==> Aligned(r[t].ctx, r[t].alpha, src, ctxDim)
  {
    forall t | 0 <= t < |s.mask| {
      MultiCondScanStepwise(act, s, w, src, ctxDim, st0, t);
    }
  }

  lemma MultiCondScanFreeze(act: Act, s: MultiCondSeqs, w: MultiCondShared, src: Source, ctxDim: nat, st0: CondOut)
    requires ExpPositive(act) && MultiCondSeqsFit(s, w, src, |st0.h|, ctxDim)
    requires forall t :: 0 <= t < |s.mask| ==> s.mask[t] == 0.0
    ensures forall t :: 0 <= t < |s.mask| ==> MultiCondScan(act, s, w, src, ctxDim, st0)[t].h == st0.h
  {
    OutputsKeep(MultiCondStepFn(act, s, w, src, ctxDim, |st0.h|), st0, |s.mask|, (st: CondOut) => st.h == st0.h);
  }

  /** The weights `multi_gru_cond_layer` reads, and `dim` as read from `Wcx_1`. */
  datatype MultiCondLayerParams = MultiCondLayerParams(dim: nat, WcAtt: Matrix, bAtt: Vector, proj: seq<Projection>,
                                                       projx: seq<Projection>, shared: MultiCondShared)

  /** The second-stage units assembled from the per-unit lookups. */
  function Stages(Unl: seq<Matrix>, bnl: seq<Vector>, Wc: seq<Matrix>, Uxnl: seq<Matrix>, bxnl: seq<Vector>,
                  Wcx: seq<Matrix>): (r: seq<SecondStage>)
    requires |bnl| == |Unl| && |Wc| == |Unl| && |Uxnl| == |Unl| && |bxnl| == |Unl| && |Wcx| == |Unl|
    ensures |r| == |Unl|
    ensures forall i :: 0 <= i < |r| ==> r[i] == SecondStage(Unl[i], bnl[i], Wc[i], Uxnl[i], bxnl[i], Wcx[i])
  {
    seq(|Unl|, i requires 0 <= i < |Unl| => SecondStage(Unl[i], bnl[i], Wc[i], Uxnl[i], bxnl[i], Wcx[i]))
  }

  /** Every lookup of `multi_gru_cond_layer` with `n` units finds an array of the rank it is used at. */
  predicate MultiCondFound(params: ParamSet, prefix: string, layer: nat, n: nat) {
    && GetMat(params, UnitKey(prefix, Wcx, layer, 1)).Ok?
    && GetMat(params, LayerKey(prefix, WcAtt, layer)).Ok? && GetVec(params, LayerKey(prefix, BAtt, layer)).Ok?
    && GetUnitProjections(params, prefix, W, B, layer, n).Ok? && GetUnitProjections(params, prefix, Wx, Bx, layer, n).Ok?
    && GetUnitMats(params, prefix, U, layer, n).Ok? && GetUnitMats(params, prefix, Wc, layer, n).Ok?
    && GetMat(params, LayerKey(prefix, WCombAtt, layer)).Ok? && GetMat(params, LayerKey(prefix, UAtt, layer)).Ok?
    && GetVec(params, LayerKey(prefix, CTt, layer)).Ok?
    && GetUnitMats(params, prefix, Ux, layer, n).Ok? && GetUnitMats(params, prefix, Wcx, layer, n).Ok?
    && GetUnitMats(params, prefix, Unl, layer, n).Ok? && GetUnitMats(params, prefix, Uxnl, layer, n).Ok?
    && GetUnitVecs(params, prefix, Bnl, layer, n).Ok? && GetUnitVecs(params, prefix, Bxnl, layer, n).Ok?
  }

  /** Each weight of `p` is the array `P` holds under its name; `dim` is the width of `Wcx_1`. */
  predicate MultiCondHolds(params: ParamSet, prefix: string, layer: nat, n: nat, p: MultiCondLayerParams)
    requires MultiCondFound(params, prefix, layer, n)
  {
    && p.dim == Cols(GetMat(params, UnitKey(prefix, Wcx, layer, 1)).value)
    && GetMat(params, LayerKey(prefix, WcAtt, layer)) == Ok(p.WcAtt) && GetVec(params, LayerKey(prefix, BAtt, layer)) == Ok(p.bAtt)
    && GetUnitProjections(params, prefix, W, B, layer, n) == Ok(p.proj)
    && GetUnitProjections(params, prefix, Wx, Bx, layer, n) == Ok(p.projx)
    && GetUnitMats(params, prefix, U, layer, n) == Ok(p.shared.U) && GetUnitMats(params, prefix, Ux, layer, n) == Ok(p.shared.Ux)
    && p.shared.att == AttentionParams(GetMat(params, LayerKey(prefix, WCombAtt, layer)).value,
                                       GetMat(params, LayerKey(prefix, UAtt, layer)).value,
                                       GetVec(params, LayerKey(prefix, CTt, layer)).value)
    && p.shared.stages == Stages(GetUnitMats(params, prefix, Unl, layer, n).value, GetUnitVecs(params, prefix, Bnl, layer, n).value,
                                 GetUnitMats(params, prefix, Wc, layer, n).value, GetUnitMats(params, prefix, Uxnl, layer, n).value,
                                 GetUnitVecs(params, prefix, Bxnl, layer, n).value, GetUnitMats(params, prefix, Wcx, layer, n).value)
  }

  /**
   * The lookups of `multi_gru_cond_layer` with `n` units, in its order: `Wcx_1` (for `dim`),
   * `Wc_att`, `b_att`, `W_i`/`b_i`, `Wx_i`/`bx_i`, then the shared `U_i`, `Wc_i`, `W_comb_att`,
   * `U_att`, `c_tt`, `Ux_i`, `Wcx_i`, `U_nl_i`, `Ux_nl_i`, `b_nl_i`, `bx_nl_i`.
   */
  function MultiCondLayerParamsOf(params: ParamSet, prefix: string, layer: nat, n: nat)
    : (r: Result<MultiCondLayerParams, LayerError>)
    ensures GetMat(params, UnitKey(prefix, Wcx, layer, 1)).Err? ==> r == Err(GetMat(params, UnitKey(prefix, Wcx, layer, 1)).error)
    ensures r.Ok? <==> MultiCondFound(params, prefix, layer, n)
    ensures r.Ok? ==> MultiCondHolds(params, prefix, layer, n, r.value)
  {
    var dimSource :- GetMat(params, UnitKey(prefix, Wcx, layer, 1));
    var attW :- GetMat(params, LayerKey(prefix, WcAtt, layer));
    var attB :- GetVec(params, LayerKey(prefix, BAtt, layer));
    var proj :- GetUnitProjections(params, prefix, W, B, layer, n);
    var projx :- GetUnitProjections(params, prefix, Wx, Bx, layer, n);
    var rec :- GetUnitMats(params, prefix, U, layer, n);
    var ctxW :- GetUnitMats(params, prefix, Wc, layer, n);
    var comb :- GetMat(params, LayerKey(prefix, WCombAtt, layer));
    var score :- GetMat(params, LayerKey(prefix, UAtt, layer));
    var scoreB :- GetVec(params, LayerKey(prefix, CTt, layer));
    var recX :- GetUnitMats(params, prefix, Ux, layer, n);
    var ctxWx :- GetUnitMats(params, prefix, Wcx, layer, n);
    var recNl :- GetUnitMats(params, prefix, Unl, layer, n);
    var recXNl :- GetUnitMats(params, prefix, Uxnl, layer, n);
    var gateBNl :- GetUnitVecs(params, prefix, Bnl, layer, n);
    var candBNl :- GetUnitVecs(params, prefix, Bxnl, layer, n);
    Ok(MultiCondLayerParams(Cols(dimSource), attW, attB, proj, projx,
                            MultiCondShared(rec, recX, AttentionParams(comb, score, scoreB),
                                            Stages(recNl, gateBNl, ctxW, recXNl, candBNl, ctxWx))))
  }

  /** The shapes under which the graph of `multi_gru_cond_layer` computes. */
  predicate MultiCondLayerFits(p: MultiCondLayerParams, xs: seq<Vector>, mask: seq<real>, annotations: seq<Vector>,
                               ctxMask: Option<Vector>, h0: Vector) {
    var dim, n := |h0|, |p.proj|;
    && SourceFits(annotations, p.WcAtt, p.bAtt, ctxMask) && |mask| == |xs|
    && n > 0 && |p.projx| == n && |p.shared.U| == n && |p.shared.Ux| == n && |p.shared.stages| == n
    && (forall i :: 0 <= i < n ==>
          && RowsOf(xs, |p.proj[i].w|) && IsMatrix(p.proj[i].w, |p.proj[i].w|, 2 * dim) && |p.proj[i].b| == 2 * dim
          && RowsOf(xs, |p.projx[i].w|) && IsMatrix(p.projx[i].w, |p.projx[i].w|, dim) && |p.projx[i].b| == dim
          && IsMatrix(p.shared.U[i], dim, 2 * dim) && IsMatrix(p.shared.Ux[i], dim, dim))
    && StagesFit(p.shared.stages, dim, |p.WcAtt|) && AttentionShapes(p.shared.att, dim, |p.WcAtt|)
  }

  /** The scan's sequences: the mask and each unit's two input projections. */
  function MultiCondLayerSeqs(p: MultiCondLayerParams, xs: seq<Vector>, mask: seq<real>, annotations: seq<Vector>,
                              ctxMask: Option<Vector>, h0: Vector): (r: MultiCondSeqs)
    requires MultiCondLayerFits(p, xs, mask, annotations, ctxMask, h0)
    ensures r.mask == mask && |r.x| == |p.proj| && |r.xx| == |p.proj|
    ensures forall i :: 0 <= i < |p.proj| ==>
      && |r.x[i]| == |xs| && |r.xx[i]| == |xs|
      && (forall t :: 0 <= t < |xs| ==> r.x[i][t] == Add(VecMat(xs[t], p.proj[i].w, 2 * |h0|), p.proj[i].b))
      && (forall t :: 0 <= t < |xs| ==> r.xx[i][t] == Add(VecMat(xs[t], p.projx[i].w, |h0|), p.projx[i].b))
  {
    var n := |p.proj|;
    MultiCondSeqs(mask, seq(n, i requires 0 <= i < n => Project(xs, p.proj[i].w, p.proj[i].b)),
                  seq(n, i requires 0 <= i < n => Project(xs, p.projx[i].w, p.projx[i].b)))
  }

  lemma LayerSeqsFit(act: Act, p: MultiCondLayerParams, xs: seq<Vector>, mask: seq<real>, annotations: seq<Vector>,
                     ctxMask: Option<Vector>, h0: Vector)
    requires ExpPositive(act) && MaskLive(ctxMask) && MultiCondLayerFits(p, xs, mask, annotations, ctxMask, h0)
    ensures MultiCondSeqsFit(MultiCondLayerSeqs(p, xs, mask, annotations, ctxMask, h0), p.shared,
                             SourceOf(annotations, p.WcAtt, p.bAtt, ctxMask), |h0|, |p.WcAtt|)
  {
    SourceOfOk(act, annotations, p.WcAtt, p.bAtt, ctxMask);
  }

  /** `multi_gru_cond_layer` over a whole target sequence; `cond_unit_size` defaults to 2. */
  function MultiGruCondLayer(act: Act, params: ParamSet, prefix: string, layer: nat, unitSize: Option<nat>, xs: seq<Vector>,
                             mask: Option<seq<real>>, context: Option<ContextArg>, initState: Option<Vector>,
                             contextMask: Option<Vector>, dropout: Option<DropoutParams>)
    : (r: Result<CondLayerOut, LayerError>)
    requires ExpPositive(act) && MaskLive(contextMask)
    ensures CheckContext(context).Err? ==> r == Err(CheckContext(context).error)
    ensures r.Ok? ==> Default(unitSize, 2) == 2
    ensures r.Ok? ==> |r.value.output| == |xs| && |r.value.contexts| == |xs| && |r.value.alphas| == |xs|
    ensures r.Ok? ==> |r.value.hiddenWithoutDropout| == |xs|
    ensures r.Ok? && dropout.None? ==> r.value.output == r.value.hiddenWithoutDropout
  {
    var annotations :- CheckContext(context);
    var n := Default(unitSize, 2);
    var p :- MultiCondLayerParamsOf(params, prefix, layer, n);
    if n != 2 then Err(ArityMismatch(n))
    else
      MultiCondRun(act, p, xs, MaskOrOnes(mask, |xs|), annotations, contextMask, StateOrZeros(initState, p.dim), dropout)
  }

  /** The graph `multi_gru_cond_layer` builds once the weights are found: the shape check, the scan and the split. */
  function MultiCondRun(act: Act, p: MultiCondLayerParams, xs: seq<Vector>, ms: seq<real>, annotations: seq<Vector>,
                        contextMask: Option<Vector>, h0: Vector, dropout: Option<DropoutParams>)
    : (r: Result<CondLayerOut, LayerError>)
    requires ExpPositive(act) && MaskLive(contextMask)
    ensures r.Ok? <==> MultiCondLayerFits(p, xs, ms, annotations, contextMask, h0)
    ensures r.Err? ==> r.error == ShapeMismatch
    ensures r.Ok? ==> |r.value.output| == |xs| && |r.value.contexts| == |xs| && |r.value.alphas| == |xs|
    ensures r.Ok? ==> |r.value.hiddenWithoutDropout| == |xs|
    ensures r.Ok? && dropout.None? ==> r.value.output == r.value.hiddenWithoutDropout
  {
    if !MultiCondLayerFits(p, xs, ms, annotations, contextMask, h0) then Err(ShapeMismatch)
    else
      LayerSeqsFit(act, p, xs, ms, annotations, contextMask, h0);
      var outs := MultiCondScan(act, MultiCondLayerSeqs(p, xs, ms, annotations, contextMask, h0), p.shared,
                                SourceOf(annotations, p.WcAtt, p.bAtt, contextMask), |p.WcAtt|,
                                CondOut(h0, Zeros(|p.WcAtt|), Zeros(|annotations|)));
      Ok(SplitCond(outs, dropout))
  }

  /** `multi_gru_cond_layer` with `one_step`: the step called once, with `None` for the carried context and alignment. */
  function MultiGruCondLayerOneStep(act: Act, params: ParamSet, prefix: string, layer: nat, unitSize: Option<nat>,
                                    x: Vector, mask: Option<real>, context: Option<ContextArg>, initState: Option<Vector>,
                                    contextMask: Option<Vector>, dropout: Option<DropoutParams>)
    : (r: Result<CondStepOut, LayerError>)
    requires ExpPositive(act) && MaskLive(contextMask)
    ensures CheckOneStep(context, initState).Err? ==> r == Err(CheckOneStep(context, initState).error)
    ensures r.Ok? ==> Default(unitSize, 2) == 2
    ensures r.Ok? && mask == Some(0.0) ==> r.value.hiddenWithoutDropout == initState.value
    ensures r.Ok? && dropout.None? ==> r.value.output == r.value.hiddenWithoutDropout
  {
    var annotations :- CheckOneStep(context, initState);
    var n := Default(unitSize, 2);
    var p :- MultiCondLayerParamsOf(params, prefix, layer, n);
    if n != 2 then Err(ArityMismatch(n))
    else
      var m := if mask.Some? then mask.value else 1.0;
      var h0 := initState.value;
      if !MultiCondLayerFits(p, [x], [m], annotations, contextMask, h0) then Err(ShapeMismatch)
      else Ok(SplitCondStep(OneStepOut(act, p, x, m, annotations, contextMask, h0), dropout))
  }

  /** The step of `one_step` on the projections of the one input `x`, with `None` for `ctx_` and `alpha_`. */
  function OneStepOut(act: Act, p: MultiCondLayerParams, x: Vector, m: real, annotations: seq<Vector>,
                      contextMask: Option<Vector>, h: Vector): (r: CondOut)
    requires ExpPositive(act) && MaskLive(contextMask) && MultiCondLayerFits(p, [x], [m], annotations, contextMask, h)
    ensures |r.h| == |h| && (m == 0.0 ==> r.h == h)
    ensures Aligned(r.ctx, r.alpha, SourceOf(annotations, p.WcAtt, p.bAtt, contextMask), |p.WcAtt|)
  {
    LayerSeqsFit(act, p, [x], [m], annotations, contextMask, h);
    var s := MultiCondLayerSeqs(p, [x], [m], annotations, contextMask, h);
    var src := SourceOf(annotations, p.WcAtt, p.bAtt, contextMask);
    MultiGruCondStep(act, m, CondUnitsAt(s, p.shared, src, |h|, |p.WcAtt|, 0), h, None, None, src,
                     p.shared.att, p.shared.stages, |p.WcAtt|)
  }

  /** The shapes that fit a whole sequence fit each of its steps, for a state of the same width. */
  lemma FitsAt(p: MultiCondLayerParams, xs: seq<Vector>, ms: seq<real>, annotations: seq<Vector>,
               contextMask: Option<Vector>, h0: Vector, t: nat, h: Vector)
    requires MultiCondLayerFits(p, xs, ms, annotations, contextMask, h0) && t < |xs| && |h| == |h0|
    ensures MultiCondLayerFits(p, [xs[t]], [ms[t]], annotations, contextMask, h)
  {
  }

  /** Once every lookup succeeds, a `cond_unit_size` other than 2 raises `TypeError`, with or without `one_step`. */
  lemma MultiGruCondLayerArity(act: Act, params: ParamSet, prefix: string, layer: nat, n: nat, xs: seq<Vector>, x: Vector,
                               mask: Option<seq<real>>, annotations: seq<Vector>, initState: Vector,
                               contextMask: Option<Vector>, dropout: Option<DropoutParams>)
    requires ExpPositive(act) && MaskLive(contextMask)
    requires n != 2 && MultiCondFound(params, prefix, layer, n)
    ensures MultiGruCondLayer(act, params, prefix, layer, Some(n), xs, mask, Some(ContextArg(3, annotations)), Some(initState),
                              contextMask, dropout) == Err(ArityMismatch(n))
    ensures MultiGruCondLayerOneStep(act, params, prefix, layer, Some(n), x, None, Some(ContextArg(3, annotations)),
                                     Some(initState), contextMask, dropout) == Err(ArityMismatch(n))
  {
  }

  /** Past the checks and the lookups, the two-unit driver fails only on shapes. */
  lemma MultiGruCondLayerOk(act: Act, params: ParamSet, prefix: string, layer: nat, xs: seq<Vector>,
                            mask: Option<seq<real>>, context: Option<ContextArg>, initState: Option<Vector>,
                            contextMask: Option<Vector>, dropout: Option<DropoutParams>)
    requires ExpPositive(act) && MaskLive(contextMask)
    requires CheckContext(context).Ok? && MultiCondFound(params, prefix, layer, 2)
    ensures var p := MultiCondLayerParamsOf(params, prefix, layer, 2).value;
      MultiGruCondLayer(act, params, prefix, layer, None, xs, mask, context, initState, contextMask, dropout).Ok?
      <==> MultiCondLayerFits(p, xs, MaskOrOnes(mask, |xs|), context.value.annotations, contextMask,
                              StateOrZeros(initState, p.dim))
  {
  }

  /** Every step's alignment of `multi_gru_cond_layer` is a distribution over the live source positions (see `LayerAligned`). */
  lemma MultiGruCondLayerAligned(act: Act, params: ParamSet, prefix: string, layer: nat, unitSize: Option<nat>,
                                 xs: seq<Vector>, mask: Option<seq<real>>, annotations: seq<Vector>,
                                 initState: Option<Vector>, contextMask: Option<Vector>, dropout: Option<DropoutParams>)
    requires ExpPositive(act) && MaskLive(contextMask)
    requires MultiGruCondLayer(act, params, prefix, layer, unitSize, xs, mask, Some(ContextArg(3, annotations)), initState,
                               contextMask, dropout).Ok?
    ensures LayerAligned(MultiGruCondLayer(act, params, prefix, layer, unitSize, xs, mask, Some(ContextArg(3, annotations)),
                                           initState, contextMask, dropout).value, annotations, contextMask)
  {
    var p := MultiCondLayerParamsOf(params, prefix, layer, 2).value;
    MultiCondRunAligned(act, p, xs, MaskOrOnes(mask, |xs|), annotations, contextMask, StateOrZeros(initState, p.dim), dropout);
  }

  lemma MultiCondRunAligned(act: Act, p: MultiCondLayerParams, xs: seq<Vector>, ms: seq<real>, annotations: seq<Vector>,
                            contextMask: Option<Vector>, h0: Vector, dropout: Option<DropoutParams>)
    requires ExpPositive(act) && MaskLive(contextMask)
    requires MultiCondRun(act, p, xs, ms, annotations, contextMask, h0, dropout).Ok?
    ensures LayerAligned(MultiCondRun(act, p, xs, ms, annotations, contextMask, h0, dropout).value, annotations, contextMask)
  {
    LayerSeqsFit(act, p, xs, ms, annotations, contextMask, h0);
    var src := SourceOf(annotations, p.WcAtt, p.bAtt, contextMask);
    var st0 := CondOut(h0, Zeros(|p.WcAtt|), Zeros(|annotations|));
    var s := MultiCondLayerSeqs(p, xs, ms, annotations, contextMask, h0);
    MultiCondScanAligned(act, s, p.shared, src, |p.WcAtt|, st0);
    SplitCondAligned(MultiCondScan(act, s, p.shared, src, |p.WcAtt|, st0), dropout, src, |p.WcAtt|);
  }

  /** A target row whose mask is 0 at every step keeps its initial state through both stages of every step. */
  lemma MultiGruCondLayerFreeze(act: Act, params: ParamSet, prefix: string, layer: nat, unitSize: Option<nat>,
                                xs: seq<Vector>, mask: seq<real>, context: Option<ContextArg>, h0: Vector,
                                contextMask: Option<Vector>, dropout: Option<DropoutParams>)
    requires ExpPositive(act) && MaskLive(contextMask)
    requires forall t :: 0 <= t < |mask| ==> mask[t] == 0.0
    requires MultiGruCondLayer(act, params, prefix, layer, unitSize, xs, Some(mask), context, Some(h0), contextMask,
                               dropout).Ok?
    ensures var hs := MultiGruCondLayer(act, params, prefix, layer, unitSize, xs, Some(mask), context, Some(h0), contextMask,
                                        dropout).value.hiddenWithoutDropout;
      forall t :: 0 <= t < |hs| ==> hs[t] == h0
  {
    var annotations := context.value.annotations;
    var p := MultiCondLayerParamsOf(params, prefix, layer, 2).value;
    LayerSeqsFit(act, p, xs, mask, annotations, contextMask, h0);
    MultiCondScanFreeze(act, MultiCondLayerSeqs(p, xs, mask, annotations, contextMask, h0), p.shared,
                        SourceOf(annotations, p.WcAtt, p.bAtt, contextMask), |p.WcAtt|,
                        CondOut(h0, Zeros(|p.WcAtt|), Zeros(|annotations|)));
  }

  /** One step of the scan as a one-step call: the inputs at `t` and the state before `t`. */
  lemma MultiCondOneStepAt(act: Act, params: ParamSet, prefix: string, layer: nat, unitSize: Option<nat>, xs: seq<Vector>,
                           mask: Option<seq<real>>, context: Option<ContextArg>, h0: Vector, contextMask: Option<Vector>,
                           t: nat)
    requires ExpPositive(act) && MaskLive(contextMask)
    requires MultiGruCondLayer(act, params, prefix, layer, unitSize, xs, mask, context, Some(h0), contextMask, None).Ok?
    requires t < |xs|
    ensures var out := MultiGruCondLayer(act, params, prefix, layer, unitSize, xs, mask, context, Some(h0), contextMask,
                                         None).value;
      MultiGruCondLayerOneStep(act, params, prefix, layer, unitSize, xs[t], Some(MaskOrOnes(mask, |xs|)[t]), context,
                               Some(if t == 0 then h0 else out.hiddenWithoutDropout[t - 1]), contextMask, None)
      == Ok(CondStepOut(out.hiddenWithoutDropout[t], out.contexts[t], out.alphas[t], out.hiddenWithoutDropout[t]))
  {
    var annotations := context.value.annotations;
    var p := MultiCondLayerParamsOf(params, prefix, layer, 2).value;
    var ms := MaskOrOnes(mask, |xs|);
    var src := SourceOf(annotations, p.WcAtt, p.bAtt, contextMask);
    var ctxDim := |p.WcAtt|;
    LayerSeqsFit(act, p, xs, ms, annotations, contextMask, h0);
    var s := MultiCondLayerSeqs(p, xs, ms, annotations, contextMask, h0);
    var st0 := CondOut(h0, Zeros(ctxDim), Zeros(|annotations|));
    var outs := MultiCondScan(act, s, p.shared, src, ctxDim, st0);
    var prev := Before(outs, st0, t);
    MultiCondScanStepwise(act, s, p.shared, src, ctxDim, st0, t);
    assert prev.h == if t == 0 then h0 else SplitCond(outs, None).hiddenWithoutDropout[t - 1];
    FitsAt(p, xs, ms, annotations, contextMask, h0, t, prev.h);
    SingleStepAgrees(act, p, xs, ms, annotations, contextMask, h0, t, prev);
  }

  /** The step at `t` of the scan is the one-step call on the inputs of time `t`, whatever `ctx_` and `alpha_` it carries. */
  lemma SingleStepAgrees(act: Act, p: MultiCondLayerParams, xs: seq<Vector>, ms: seq<real>, annotations: seq<Vector>,
                         contextMask: Option<Vector>, h0: Vector, t: nat, prev: CondOut)
    requires ExpPositive(act) && MaskLive(contextMask) && MultiCondLayerFits(p, xs, ms, annotations, contextMask, h0)
    requires t < |xs| && |prev.h| == |h0| && MultiCondLayerFits(p, [xs[t]], [ms[t]], annotations, contextMask, prev.h)
    requires MultiCondSeqsFit(MultiCondLayerSeqs(p, xs, ms, annotations, contextMask, h0), p.shared,
                              SourceOf(annotations, p.WcAtt, p.bAtt, contextMask), |prev.h|, |p.WcAtt|)
    ensures OneStepOut(act, p, xs[t], ms[t], annotations, contextMask, prev.h)
         == MultiCondStepAt(act, MultiCondLayerSeqs(p, xs, ms, annotations, contextMask, h0), p.shared,
                            SourceOf(annotations, p.WcAtt, p.bAtt, contextMask), |p.WcAtt|, t, prev)
  {
    var src := SourceOf(annotations, p.WcAtt, p.bAtt, contextMask);
    var s := MultiCondLayerSeqs(p, xs, ms, annotations, contextMask, h0);
    LayerSeqsFit(act, p, [xs[t]], [ms[t]], annotations, contextMask, prev.h);
    SameUnits(p, xs, ms, annotations, contextMask, h0, t, prev.h);
    MultiGruCondStepIgnoresCarried(act, ms[t], CondUnitsAt(s, p.shared, src, |prev.h|, |p.WcAtt|, t), prev.h,
                                   Some(prev.ctx), Some(prev.alpha), src, p.shared.att, p.shared.stages, |p.WcAtt|);
  }

  /** The units a one-step call builds from the inputs at `t` are the scan's units at `t`. */
  lemma SameUnits(p: MultiCondLayerParams, xs: seq<Vector>, ms: seq<real>, annotations: seq<Vector>,
                  contextMask: Option<Vector>, h0: Vector, t: nat, h: Vector)
    requires MultiCondLayerFits(p, xs, ms, annotations, contextMask, h0) && t < |xs| && |h| == |h0|
    requires MultiCondLayerFits(p, [xs[t]], [ms[t]], annotations, contextMask, h)
    requires var src := SourceOf(annotations, p.WcAtt, p.bAtt, contextMask);
      && MultiCondSeqsFit(MultiCondLayerSeqs(p, xs, ms, annotations, contextMask, h0), p.shared, src, |h|, |p.WcAtt|)
      && MultiCondSeqsFit(MultiCondLayerSeqs(p, [xs[t]], [ms[t]], annotations, contextMask, h), p.shared, src, |h|, |p.WcAtt|)
    ensures var src := SourceOf(annotations, p.WcAtt, p.bAtt, contextMask);
      CondUnitsAt(MultiCondLayerSeqs(p, [xs[t]], [ms[t]], annotations, contextMask, h), p.shared, src, |h|, |p.WcAtt|, 0)
      == CondUnitsAt(MultiCondLayerSeqs(p, xs, ms, annotations, contextMask, h0), p.shared, src, |h|, |p.WcAtt|, t)
  {
    var src := SourceOf(annotations, p.WcAtt, p.bAtt, contextMask);
    var s := MultiCondLayerSeqs(p, xs, ms, annotations, contextMask, h0);
    var s1 := MultiCondLayerSeqs(p, [xs[t]], [ms[t]], annotations, contextMask, h);
    var a := CondUnitsAt(s1, p.shared, src, |h|, |p.WcAtt|, 0);
    var b := CondUnitsAt(s, p.shared, src, |h|, |p.WcAtt|, t);
    forall i | 0 <= i < |a|
      ensures a[i] == b[i]
    {
      assert s1.x[i][0] == s.x[i][t] && s1.xx[i][0] == s.xx[i][t];
    }
  }

  /** Chained one-step calls, each fed the previous state, reproduce the scan's three sequences. */
  lemma MultiCondOneStepsReplayScan(act: Act, params: ParamSet, prefix: string, layer: nat, unitSize: Option<nat>,
                                    xs: seq<Vector>, mask: Option<seq<real>>, context: Option<ContextArg>, h0: Vector,
                                    contextMask: Option<Vector>)
    requires ExpPositive(act) && MaskLive(contextMask)
    requires MultiGruCondLayer(act, params, prefix, layer, unitSize, xs, mask, context, Some(h0), contextMask, None).Ok?
    ensures var out := MultiGruCondLayer(act, params, prefix, layer, unitSize, xs, mask, context, Some(h0), contextMask,
                                         None).value;
      forall t :: 0 <= t < |xs| ==>
        MultiGruCondLayerOneStep(act, params, prefix, layer, unitSize, xs[t], Some(MaskOrOnes(mask, |xs|)[t]), context,
                                 Some(if t == 0 then h0 else out.hiddenWithoutDropout[t - 1]), contextMask, None)
        == Ok(CondStepOut(out.hiddenWithoutDropout[t], out.contexts[t], out.alphas[t], out.hiddenWithoutDropout[t]))
  {
    forall t | 0 <= t < |xs| {
      MultiCondOneStepAt(act, params, prefix, layer, unitSize, xs, mask, context, h0, contextMask, t);
    }
  }

  /** The schema `param_init_multi_gru_cond` writes when the `*_nonlin` sizes are left at `nin` and `dim`. */
  function MultiGruCondSchema(prefix: string, nin: nat, dim: nat, dimctx: nat, layer: nat, n: nat): Schema {
    MultiGruCondInto(map[], prefix, nin, dim, dimctx, nin, dim, layer, n)
  }

  /** The unit loop of `param_init_multi_gru_cond` leaves unit `i`'s arrays as the pass for `i` wrote them. */
  lemma {:induction false} MultiCondUnitsValue(prefix: string, nin: nat, dim: nat, dimctx: nat, layer: nat, n: nat, k: Key)
    requires k.unit.Some? && 1 <= k.unit.value <= n && Owned(k, prefix, layer, k.unit) && CondUnitRole(k.role)
    ensures var s := MultiCondUnitsInto(map[], prefix, nin, dim, dimctx, nin, dim, layer, n);
      k in s && s[k] == CondUnitInto(map[], prefix, nin, dim, dimctx, nin, dim, layer, k.unit)[k]
    decreases n
  {
    CondUnitKeys(MultiCondUnitsInto(map[], prefix, nin, dim, dimctx, nin, dim, layer, n - 1),
                 prefix, nin, dim, dimctx, nin, dim, layer, Some(n), k);
    if k.unit.value < n {
      MultiCondUnitsValue(prefix, nin, dim, dimctx, layer, n - 1, k);
    } else {
      CondUnitKeys(map[], prefix, nin, dim, dimctx, nin, dim, layer, Some(n), k);
    }
  }

  /** The shape of one per-unit name of unit `i` in the schema. */
  lemma MultiCondSchemaAt(prefix: string, nin: nat, dim: nat, dimctx: nat, layer: nat, n: nat, i: nat, role: Role)
    requires 1 <= i <= n && CondUnitRole(role)
    ensures var s := MultiGruCondSchema(prefix, nin, dim, dimctx, layer, n);
      UnitKey(prefix, role, layer, i) in s
      && s[UnitKey(prefix, role, layer, i)] == CondUnitInto(map[], prefix, nin, dim, dimctx, nin, dim, layer, Some(i))[UnitKey(prefix, role, layer, i)]
  {
    var k := UnitKey(prefix, role, layer, i);
    MultiCondUnitsValue(prefix, nin, dim, dimctx, layer, n, k);
    AttentionKeys(MultiCondUnitsInto(map[], prefix, nin, dim, dimctx, nin, dim, layer, n), prefix, dim, dimctx, layer, k);
  }

  /** The first-stage names of unit `i`, with the shapes `param_init_multi_gru_cond` gives them. */
  lemma MultiCondSchemaFirst(prefix: string, nin: nat, dim: nat, dimctx: nat, layer: nat, n: nat, i: nat)
    requires 1 <= i <= n
    ensures var s := MultiGruCondSchema(prefix, nin, dim, dimctx, layer, n);
      && UnitKey(prefix, W, layer, i) in s && s[UnitKey(prefix, W, layer, i)] == Mat(nin, 2 * dim)
      && UnitKey(prefix, B, layer, i) in s && s[UnitKey(prefix, B, layer, i)] == Vec(2 * dim)
      && UnitKey(prefix, Wx, layer, i) in s && s[UnitKey(prefix, Wx, layer, i)] == Mat(nin, dim)
      && UnitKey(prefix, Bx, layer, i) in s && s[UnitKey(prefix, Bx, layer, i)] == Vec(dim)
      && UnitKey(prefix, U, layer, i) in s && s[UnitKey(prefix, U, layer, i)] == Mat(dim, 2 * dim)
      && UnitKey(prefix, Ux, layer, i) in s && s[UnitKey(prefix, Ux, layer, i)] == Mat(dim, dim)
  {
    MultiCondSchemaAt(prefix, nin, dim, dimctx, layer, n, i, W);
    MultiCondSchemaAt(prefix, nin, dim, dimctx, layer, n, i, B);
    MultiCondSchemaAt(prefix, nin, dim, dimctx, layer, n, i, Wx);
    MultiCondSchemaAt(prefix, nin, dim, dimctx, layer, n, i, Bx);
    MultiCondSchemaAt(prefix, nin, dim, dimctx, layer, n, i, U);
    MultiCondSchemaAt(prefix, nin, dim, dimctx, layer, n, i, Ux);
  }

  /** The second-stage names of unit `i`, with the shapes `param_init_multi_gru_cond` gives them. */
  lemma MultiCondSchemaSecond(prefix: string, nin: nat, dim: nat, dimctx: nat, layer: nat, n: nat, i: nat)
    requires 1 <= i <= n
    ensures var s := MultiGruCondSchema(prefix, nin, dim, dimctx, layer, n);
      && UnitKey(prefix, Wc, layer, i) in s && s[UnitKey(prefix, Wc, layer, i)] == Mat(dimctx, 2 * dim)
      && UnitKey(prefix, Wcx, layer, i) in s && s[UnitKey(prefix, Wcx, layer, i)] == Mat(dimctx, dim)
      && UnitKey(prefix, Unl, layer, i) in s && s[UnitKey(prefix, Unl, layer, i)] == Mat(dim, 2 * dim)
      && UnitKey(prefix, Bnl, layer, i) in s && s[UnitKey(prefix, Bnl, layer, i)] == Vec(2 * dim)
      && UnitKey(prefix, Uxnl, layer, i) in s && s[UnitKey(prefix, Uxnl, layer, i)] == Mat(dim, dim)
      && UnitKey(prefix, Bxnl, layer, i) in s && s[UnitKey(prefix, Bxnl, layer, i)] == Vec(dim)
  {
    MultiCondSchemaAt(prefix, nin, dim, dimctx, layer, n, i, Wc);
    MultiCondSchemaAt(prefix, nin, dim, dimctx, layer, n, i, Wcx);
    MultiCondSchemaAt(prefix, nin, dim, dimctx, layer, n, i, Unl);
    MultiCondSchemaAt(prefix, nin, dim, dimctx, layer, n, i, Bnl);
    MultiCondSchemaAt(prefix, nin, dim, dimctx, layer, n, i, Uxnl);
    MultiCondSchemaAt(prefix, nin, dim, dimctx, layer, n, i, Bxnl);
  }

  /** Each per-unit lookup finds `n` arrays of the shape the initialiser gives them. */
  lemma UnitLookupsConform(params: ParamSet, prefix: string, nin: nat, dim: nat, dimctx: nat, layer: nat, n: nat)
    requires Conforms(params, MultiGruCondSchema(prefix, nin, dim, dimctx, layer, n))
    ensures ProjectionsShaped(GetUnitProjections(params, prefix, W, B, layer, n), n, nin, 2 * dim)
    ensures ProjectionsShaped(GetUnitProjections(params, prefix, Wx, Bx, layer, n), n, nin, dim)
    ensures MatsShaped(GetUnitMats(params, prefix, U, layer, n), n, dim, 2 * dim)
    ensures MatsShaped(GetUnitMats(params, prefix, Ux, layer, n), n, dim, dim)
    ensures MatsShaped(GetUnitMats(params, prefix, Wc, layer, n), n, dimctx, 2 * dim)
    ensures MatsShaped(GetUnitMats(params, prefix, Wcx, layer, n), n, dimctx, dim)
    ensures MatsShaped(GetUnitMats(params, prefix, Unl, layer, n), n, dim, 2 * dim)
    ensures MatsShaped(GetUnitMats(params, prefix, Uxnl, layer, n), n, dim, dim)
    ensures VecsShaped(GetUnitVecs(params, prefix, Bnl, layer, n), n, 2 * dim)
    ensures VecsShaped(GetUnitVecs(params, prefix, Bxnl, layer, n), n, dim)
  {
    var s := MultiGruCondSchema(prefix, nin, dim, dimctx, layer, n);
    forall i | 1 <= i <= n {
      MultiCondSchemaFirst(prefix, nin, dim, dimctx, layer, n, i);
    }
    forall i | 1 <= i <= n {
      MultiCondSchemaSecond(prefix, nin, dim, dimctx, layer, n, i);
    }
    GetUnitProjectionsConform(params, s, prefix, W, B, layer, n, nin, 2 * dim);
    GetUnitProjectionsConform(params, s, prefix, Wx, Bx, layer, n, nin, dim);
    GetUnitMatsConform(params, s, prefix, U, layer, n, dim, 2 * dim);
    GetUnitMatsConform(params, s, prefix, Ux, layer, n, dim, dim);
    GetUnitMatsConform(params, s, prefix, Wc, layer, n, dimctx, 2 * dim);
    GetUnitMatsConform(params, s, prefix, Wcx, layer, n, dimctx, dim);
    GetUnitMatsConform(params, s, prefix, Unl, layer, n, dim, 2 * dim);
    GetUnitMatsConform(params, s, prefix, Uxnl, layer, n, dim, dim);
    GetUnitVecsConform(params, s, prefix, Bnl, layer, n, 2 * dim);
    GetUnitVecsConform(params, s, prefix, Bxnl, layer, n, dim);
  }

  /** The attention lookups, which carry no unit index. */
  lemma AttentionLookupsConform(params: ParamSet, prefix: string, nin: nat, dim: nat, dimctx: nat, layer: nat, n: nat)
    requires Conforms(params, MultiGruCondSchema(prefix, nin, dim, dimctx, layer, n))
    ensures GetMat(params, LayerKey(prefix, WcAtt, layer)).Ok? && IsMatrix(GetMat(params, LayerKey(prefix, WcAtt, layer)).value, dimctx, dimctx)
    ensures GetVec(params, LayerKey(prefix, BAtt, layer)).Ok? && |GetVec(params, LayerKey(prefix, BAtt, layer)).value| == dimctx
    ensures GetMat(params, LayerKey(prefix, WCombAtt, layer)).Ok? && IsMatrix(GetMat(params, LayerKey(prefix, WCombAtt, layer)).value, dim, dimctx)
    ensures GetMat(params, LayerKey(prefix, UAtt, layer)).Ok? && IsMatrix(GetMat(params, LayerKey(prefix, UAtt, layer)).value, dimctx, 1)
    ensures GetVec(params, LayerKey(prefix, CTt, layer)).Ok? && |GetVec(params, LayerKey(prefix, CTt, layer)).value| == 1
  {
    var s := MultiGruCondSchema(prefix, nin, dim, dimctx, layer, n);
    GetMatConforms(params, s, LayerKey(prefix, WcAtt, layer), dimctx, dimctx);
    GetVecConforms(params, s, LayerKey(prefix, BAtt, layer), dimctx);
    GetMatConforms(params, s, LayerKey(prefix, WCombAtt, layer), dim, dimctx);
    GetMatConforms(params, s, LayerKey(prefix, UAtt, layer), dimctx, 1);
    GetVecConforms(params, s, LayerKey(prefix, CTt, layer), 1);
  }

  /** Every weight has the shape the initialiser gives it, for `n` units. */
  predicate MultiCondShapes(p: MultiCondLayerParams, nin: nat, dim: nat, dimctx: nat, n: nat) {
    && p.dim == dim && IsMatrix(p.WcAtt, dimctx, dimctx) && |p.bAtt| == dimctx
    && |p.proj| == n && |p.projx| == n && |p.shared.U| == n && |p.shared.Ux| == n && |p.shared.stages| == n
    && (forall i :: 0 <= i < n ==>
          && IsMatrix(p.proj[i].w, nin, 2 * dim) && |p.proj[i].b| == 2 * dim
          && IsMatrix(p.projx[i].w, nin, dim) && |p.projx[i].b| == dim
          && IsMatrix(p.shared.U[i], dim, 2 * dim) && IsMatrix(p.shared.Ux[i], dim, dim))
    && StagesFit(p.shared.stages, dim, dimctx) && AttentionShapes(p.shared.att, dim, dimctx)
  }

  /** On a `P` that `param_init_multi_gru_cond` filled, every lookup finds an array of the configured shape. */
  lemma MultiGruCondLayerParamsConform(params: ParamSet, prefix: string, nin: nat, dim: nat, dimctx: nat, layer: nat,
                                       n: nat)
    requires Conforms(params, MultiGruCondSchema(prefix, nin, dim, dimctx, layer, n)) && n >= 1 && dimctx > 0
    ensures var r := MultiCondLayerParamsOf(params, prefix, layer, n);
      r.Ok? && MultiCondShapes(r.value, nin, dim, dimctx, n)
  {
    UnitLookupsConform(params, prefix, nin, dim, dimctx, layer, n);
    AttentionLookupsConform(params, prefix, nin, dim, dimctx, layer, n);
    var wcx := GetUnitMats(params, prefix, Wcx, layer, n);
    assert GetMat(params, UnitKey(prefix, Wcx, layer, 1)) == Ok(wcx.value[0]);
    ColsOf(wcx.value[0], dimctx, dim);
    var p := MultiCondLayerParamsOf(params, prefix, layer, n).value;
    forall i | 0 <= i < n
      ensures SecondStageShapes(p.shared.stages[i], dim, dimctx)
    {
    }
  }

  /**
   * On a `P` that `param_init_multi_gru_cond` filled with the default two units,
   * `multi_gru_cond_layer` computes for every input of the configured widths.
   */
  lemma MultiGruCondLayerSucceeds(act: Act, params: ParamSet, prefix: string, nin: nat, dim: nat, dimctx: nat, layer: nat,
                                  xs: seq<Vector>, mask: Option<seq<real>>, annotations: seq<Vector>,
                                  initState: Option<Vector>, contextMask: Option<Vector>, dropout: Option<DropoutParams>)
    requires ExpPositive(act) && MaskLive(contextMask)
    requires Conforms(params, MultiGruCondSchema(prefix, nin, dim, dimctx, layer, 2)) && dimctx > 0
    requires RowsOf(xs, nin) && (mask.Some? ==> |mask.value| == |xs|) && (initState.Some? ==> |initState.value| == dim)
    requires RowsOf(annotations, dimctx) && (contextMask.Some? ==> |contextMask.value| == |annotations|)
    ensures MultiGruCondLayer(act, params, prefix, layer, None, xs, mask, Some(ContextArg(3, annotations)), initState,
                              contextMask, dropout).Ok?
  {
    MultiGruCondLayerParamsConform(params, prefix, nin, dim, dimctx, layer, 2);
    var p := MultiCondLayerParamsOf(params, prefix, layer, 2).value;
    FitsOfShapes(p, nin, dim, dimctx, xs, MaskOrOnes(mask, |xs|), annotations, contextMask, StateOrZeros(initState, p.dim));
    MultiGruCondLayerOk(act, params, prefix, layer, xs, mask, Some(ContextArg(3, annotations)), initState, contextMask,
                        dropout);
  }

  lemma FitsOfShapes(p: MultiCondLayerParams, nin: nat, dim: nat, dimctx: nat, xs: seq<Vector>, ms: seq<real>,
                     annotations: seq<Vector>, contextMask: Option<Vector>, h0: Vector)
    requires MultiCondShapes(p, nin, dim, dimctx, 2) && dimctx > 0
    requires RowsOf(xs, nin) && |ms| == |xs| && |h0| == dim
    requires RowsOf(annotations, dimctx) && (contextMask.Some? ==> |contextMask.value| == |annotations|)
    ensures MultiCondLayerFits(p, xs, ms, annotations, contextMask, h0)
  {
  }

  /** A missing target mask is all ones and a missing initial state is `dim` zeros, `dim` being the width of `Wcx_1`. */
  lemma MultiGruCondLayerDefaults(act: Act, params: ParamSet, prefix: string, nin: nat, dim: nat, dimctx: nat, layer: nat,
                                  xs: seq<Vector>, context: Option<ContextArg>, contextMask: Option<Vector>,
                                  dropout: Option<DropoutParams>)
    requires ExpPositive(act) && MaskLive(contextMask)
    requires Conforms(params, MultiGruCondSchema(prefix, nin, dim, dimctx, layer, 2)) && dimctx > 0
    ensures MultiGruCondLayer(act, params, prefix, layer, None, xs, None, context, None, contextMask, dropout)
         == MultiGruCondLayer(act, params, prefix, layer, None, xs, Some(Ones(|xs|)), context, Some(Zeros(dim)), contextMask,
                              dropout)
  {
    var s := MultiGruCondSchema(prefix, nin, dim, dimctx, layer, 2);
    MultiCondSchemaSecond(prefix, nin, dim, dimctx, layer, 2, 1);
    GetMatConforms(params, s, UnitKey(prefix, Wcx, layer, 1), dimctx, dim);
    ColsOf(GetMat(params, UnitKey(prefix, Wcx, layer, 1)).value, dimctx, dim);
    var r := MultiCondLayerParamsOf(params, prefix, layer, 2);
    if CheckContext(context).Ok? && r.Ok? {
      assert StateOrZeros(None, r.value.dim) == StateOrZeros(Some(Zeros(dim)), r.value.dim);
      assert MaskOrOnes(None, |xs|) == MaskOrOnes(Some(Ones(|xs|)), |xs|);
    }
  }
}
