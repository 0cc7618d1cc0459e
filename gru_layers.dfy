/** The drivers `gru_layer` and `multi_gru_layer`: a scan of a step function over time, or one call of it. */
module GruLayers {
  import opened Linalg
  import opened Activations
  import opened Wrappers
  import opened Dropout
  import opened Params
  import opened Lookup
  import opened Scan
  import opened Gru
  import opened MultiGru

  /** The non-sequences of the GRU scan: `U`, `Ux` and, with a context, `Wc`, `Wcx`. */
  datatype GruShared = GruShared(U: Matrix, Ux: Matrix, ctxW: Option<ContextUnit>)

  /** The sequences of the GRU scan, one entry per step: the mask, `state_below_`, `state_belowx` and the context. */
  datatype GruSeqs = GruSeqs(mask: seq<real>, x: seq<Vector>, xx: seq<Vector>, ctx: Option<seq<Vector>>)

  predicate SeqsFit(s: GruSeqs, w: GruShared, dim: nat) {
    && |s.x| == |s.mask| && |s.xx| == |s.mask| && RowsOf(s.x, 2 * dim) && RowsOf(s.xx, dim)
    && IsMatrix(w.U, dim, 2 * dim) && IsMatrix(w.Ux, dim, dim)
    && (s.ctx.Some? <==> w.ctxW.Some?)
    && (s.ctx.Some? ==>
         && |s.ctx.value| == |s.mask|
         && forall t :: 0 <= t < |s.mask| ==> ContextShapes(s.ctx.value[t], dim, w.ctxW.value.Wc, w.ctxW.value.Wcx))
  }

  /** The step the scan runs at time `t`: `_gru_step_slice`, or `_gru_step_slice_attention` when a context is given. */
  function StepAt(act: Act, s: GruSeqs, w: GruShared, t: nat, h: Vector): (r: Vector)
    requires SeqsFit(s, w, |h|) && t < |s.mask|
    ensures |r| == |h|
    ensures s.mask[t] == 0.0 ==> r == h
  {
    if s.ctx.Some? then
      GruStepAttention(act, s.mask[t], s.x[t], s.xx[t], s.ctx.value[t], h, w.U, w.Ux, w.ctxW.value.Wc, w.ctxW.value.Wcx)
    else GruStep(act, s.mask[t], s.x[t], s.xx[t], h, w.U, w.Ux)
  }

  /** The step as the scan calls it; a state of another width is never reached. */
  function StepFn(act: Act, s: GruSeqs, w: GruShared, dim: nat): (nat, Vector) -> Vector {
    (t: nat, h: Vector) => if t < |s.mask| && |h| == dim && SeqsFit(s, w, dim) then StepAt(act, s, w, t, h) else h
  }

  /** `theano.scan` of the step from `h0`, one state per step. */
  function GruScan(act: Act, s: GruSeqs, w: GruShared, h0: Vector): (r: seq<Vector>)
    requires SeqsFit(s, w, |h0|)
    ensures |r| == |s.mask| && RowsOf(r, |h0|)
  {
    ScanWidth(act, s, w, h0);
    Outputs(StepFn(act, s, w, |h0|), h0, |s.mask|)
  }

  /** The output at `t` is the step at `t` applied to the output at `t − 1`, or to `h0` at 0. */
  lemma GruScanStepwise(act: Act, s: GruSeqs, w: GruShared, h0: Vector, t: nat)
    requires SeqsFit(s, w, |h0|) && t < |s.mask|
    ensures var r := GruScan(act, s, w, h0); r[t] == StepAt(act, s, w, t, Before(r, h0, t))
  {
    ScanStepwise(act, s, w, h0, t);
  }

  /** Rows whose mask is 0 throughout keep `h0`. */
  lemma GruScanFreeze(act: Act, s: GruSeqs, w: GruShared, h0: Vector)
    requires SeqsFit(s, w, |h0|)
    requires forall t :: 0 <= t < |s.mask| ==> s.mask[t] == 0.0
    ensures forall t :: 0 <= t < |s.mask| ==> GruScan(act, s, w, h0)[t] == h0
  {
    ScanFreeze(act, s, w, h0);
  }

  lemma ScanWidth(act: Act, s: GruSeqs, w: GruShared, h0: Vector)
    requires SeqsFit(s, w, |h0|)
    ensures RowsOf(Outputs(StepFn(act, s, w, |h0|), h0, |s.mask|), |h0|)
  {
    OutputsKeep(StepFn(act, s, w, |h0|), h0, |s.mask|, (h: Vector) => |h| == |h0|);
  }

  lemma ScanStepwise(act: Act, s: GruSeqs, w: GruShared, h0: Vector, t: nat)
    requires SeqsFit(s, w, |h0|) && t < |s.mask|
    ensures var r := Outputs(StepFn(act, s, w, |h0|), h0, |s.mask|);
      |Before(r, h0, t)| == |h0| && r[t] == StepAt(act, s, w, t, Before(r, h0, t))
  {
    var f := StepFn(act, s, w, |h0|);
    ScanWidth(act, s, w, h0);
    OutputsStepwise(f, h0, |s.mask|);
    var r := Outputs(f, h0, |s.mask|);
    assert r[t] == f(t, Before(r, h0, t));
  }

  lemma ScanFreeze(act: Act, s: GruSeqs, w: GruShared, h0: Vector)
    requires SeqsFit(s, w, |h0|)
    ensures (forall t :: 0 <= t < |s.mask| ==> s.mask[t] == 0.0) ==>
      forall t :: 0 <= t < |s.mask| ==> Outputs(StepFn(act, s, w, |h0|), h0, |s.mask|)[t] == h0
  {
    if forall t :: 0 <= t < |s.mask| ==> s.mask[t] == 0.0 {
      OutputsFixed(StepFn(act, s, w, |h0|), h0, |s.mask|);
    }
  }

  /** The weights `gru_layer` reads from `P`. */
  datatype GruLayerParams = GruLayerParams(W: Matrix, b: Vector, Wx: Matrix, bx: Vector, shared: GruShared)

  /**
   * The lookups of `gru_layer`, in its order: `Ux` (for `dim`), `W`, `b`, `Wx`, `bx`, then the
   * shared `U`, `Ux` and, with a context, `Wc`, `Wcx`.
   */
  function GruLayerParamsOf(params: ParamSet, prefix: string, layer: nat, withContext: bool)
    : (r: Result<GruLayerParams, LayerError>)
    ensures r.Ok? ==> (r.value.shared.ctxW.Some? <==> withContext)
    ensures r.Ok? ==> LayerKey(prefix, Ux, layer) in params && params[LayerKey(prefix, Ux, layer)] == M(r.value.shared.Ux)
  {
    var dimSource :- GetMat(params, LayerKey(prefix, Ux, layer));
    var gateW :- GetMat(params, LayerKey(prefix, W, layer));
    var gateB :- GetVec(params, LayerKey(prefix, B, layer));
    var candW :- GetMat(params, LayerKey(prefix, Wx, layer));
    var candB :- GetVec(params, LayerKey(prefix, Bx, layer));
    var rec :- GetMat(params, LayerKey(prefix, U, layer));
    // `Ux` is read a second time here; that read finds the array read first.
    var recX := dimSource;
    if withContext then
      var ctxW :- GetMat(params, LayerKey(prefix, Wc, layer));
      var ctxWx :- GetMat(params, LayerKey(prefix, Wcx, layer));
      Ok(GruLayerParams(gateW, gateB, candW, candB, GruShared(rec, recX, Some(ContextUnit(ctxW, ctxWx)))))
    else Ok(GruLayerParams(gateW, gateB, candW, candB, GruShared(rec, recX, None)))
  }

  /** The shapes under which the graph of `gru_layer` computes: one input row of `nin` entries per step, a state of `dim`. */
  predicate GruLayerFits(p: GruLayerParams, xs: seq<Vector>, mask: seq<real>, ctx: Option<seq<Vector>>, h0: Vector) {
    var dim := |h0|;
    && RowsOf(xs, |p.W|) && IsMatrix(p.W, |p.W|, 2 * dim) && |p.b| == 2 * dim
    && IsMatrix(p.Wx, |p.W|, dim) && |p.bx| == dim && |mask| == |xs|
    && IsMatrix(p.shared.U, dim, 2 * dim) && IsMatrix(p.shared.Ux, dim, dim)
    && (ctx.Some? <==> p.shared.ctxW.Some?)
    && (ctx.Some? ==>
         && |ctx.value| == |xs|
         && forall t :: 0 <= t < |xs| ==> ContextShapes(ctx.value[t], dim, p.shared.ctxW.value.Wc, p.shared.ctxW.value.Wcx))
  }

  /** The scan's sequences: the mask and the two input projections, plus the context. */
  function GruLayerSeqs(p: GruLayerParams, xs: seq<Vector>, mask: seq<real>, ctx: Option<seq<Vector>>, h0: Vector)
    : (r: GruSeqs)
    requires GruLayerFits(p, xs, mask, ctx, h0)
    ensures SeqsFit(r, p.shared, |h0|) && r.mask == mask && r.ctx == ctx
    ensures forall t :: 0 <= t < |xs| ==> r.x[t] == Add(VecMat(xs[t], p.W, 2 * |h0|), p.b)
    ensures forall t :: 0 <= t < |xs| ==> r.xx[t] == Add(VecMat(xs[t], p.Wx, |h0|), p.bx)
  {
    GruSeqs(mask, Project(xs, p.W, p.b), Project(xs, p.Wx, p.bx), ctx)
  }

  /** `outputs` (after the optional dropout) and `kw_ret['hidden_without_dropout']`. */
  datatype GruLayerOut = GruLayerOut(output: seq<Vector>, hiddenWithoutDropout: seq<Vector>)

  /** `gru_layer` over a whole sequence (`one_step` false). */
  function GruLayer(act: Act, params: ParamSet, prefix: string, layer: nat, xs: seq<Vector>, mask: Option<seq<real>>,
                    context: Option<seq<Vector>>, initState: Option<Vector>, dropout: Option<DropoutParams>)
    : (r: Result<GruLayerOut, LayerError>)
    ensures r.Ok? ==> |r.value.hiddenWithoutDropout| == |xs| && |r.value.output| == |xs|
    ensures r.Ok? && dropout.None? ==> r.value.output == r.value.hiddenWithoutDropout
  {
    var p :- GruLayerParamsOf(params, prefix, layer, context.Some?);
    var ms := MaskOrOnes(mask, |xs|);
    var h0 := StateOrZeros(initState, Cols(p.shared.Ux));
    if !GruLayerFits(p, xs, ms, context, h0) then Err(ShapeMismatch)
    else
      var hs := GruScan(act, GruLayerSeqs(p, xs, ms, context, h0), p.shared, h0);
      Ok(GruLayerOut(MaybeDropoutSeq(hs, dropout), hs))
  }

  /** The results of one call of the step. */
  datatype GruStepOut = GruStepOut(output: Vector, hiddenWithoutDropout: Vector)

  function Single<T>(x: Option<T>): Option<seq<T>> {
    if x.Some? then Some([x.value]) else None
  }

  /** `gru_layer` with `one_step`: the step called once on inputs without a time axis. */
  function GruLayerOneStep(act: Act, params: ParamSet, prefix: string, layer: nat, x: Vector, mask: Option<real>,
                           context: Option<Vector>, initState: Option<Vector>, dropout: Option<DropoutParams>)
    : (r: Result<GruStepOut, LayerError>)
    ensures r.Ok? && dropout.None? ==> r.value.output == r.value.hiddenWithoutDropout
    ensures r.Ok? && mask == Some(0.0) && initState.Some? ==> r.value.hiddenWithoutDropout == initState.value
  {
    var p :- GruLayerParamsOf(params, prefix, layer, context.Some?);
    var m := if mask.Some? then mask.value else 1.0;
    var h0 := StateOrZeros(initState, Cols(p.shared.Ux));
    if !GruLayerFits(p, [x], [m], Single(context), h0) then Err(ShapeMismatch)
    else
      var h := StepAt(act, GruLayerSeqs(p, [x], [m], Single(context), h0), p.shared, 0, h0);
      Ok(GruStepOut(MaybeDropoutRow(h, dropout), h))
  }

  function At<T>(xs: Option<seq<T>>, t: nat): Option<T>
    requires xs.Some? ==> t < |xs.value|
  {
    if xs.Some? then Some(xs.value[t]) else None
  }

  /** One step of a scan as a one-step call: the inputs at `t` and the scanned state before `t`. */
  lemma OneStepAt(act: Act, params: ParamSet, prefix: string, layer: nat, xs: seq<Vector>, mask: Option<seq<real>>,
                  context: Option<seq<Vector>>, initState: Option<Vector>, t: nat)
    requires GruLayer(act, params, prefix, layer, xs, mask, context, initState, None).Ok? && t < |xs|
    ensures var hs := GruLayer(act, params, prefix, layer, xs, mask, context, initState, None).value.hiddenWithoutDropout;
      GruLayerOneStep(act, params, prefix, layer, xs[t], Some(MaskOrOnes(mask, |xs|)[t]), At(context, t),
                      if t == 0 then initState else Some(hs[t - 1]), None)
      == Ok(GruStepOut(hs[t], hs[t]))
  {
    var p := GruLayerParamsOf(params, prefix, layer, context.Some?).value;
    var ms := MaskOrOnes(mask, |xs|);
    var h0 := StateOrZeros(initState, Cols(p.shared.Ux));
    var s := GruLayerSeqs(p, xs, ms, context, h0);
    var hs := GruScan(act, s, p.shared, h0);
    var prev := Before(hs, h0, t);
    GruScanStepwise(act, s, p.shared, h0, t);
    assert StateOrZeros(if t == 0 then initState else Some(hs[t - 1]), Cols(p.shared.Ux)) == prev;
    assert GruLayerFits(p, [xs[t]], [ms[t]], Single(At(context, t)), prev);
    var s1 := GruLayerSeqs(p, [xs[t]], [ms[t]], Single(At(context, t)), prev);
    assert s1.x[0] == s.x[t] && s1.xx[0] == s.xx[t];
    assert StepAt(act, s1, p.shared, 0, prev) == StepAt(act, s, p.shared, t, prev);
  }

  /** `T` chained one-step calls, each fed the previous result, reproduce the scanned hidden sequence. */
  lemma OneStepsReplayScan(act: Act, params: ParamSet, prefix: string, layer: nat, xs: seq<Vector>,
                           mask: Option<seq<real>>, context: Option<seq<Vector>>, initState: Option<Vector>)
    requires GruLayer(act, params, prefix, layer, xs, mask, context, initState, None).Ok?
    ensures var hs := GruLayer(act, params, prefix, layer, xs, mask, context, initState, None).value.hiddenWithoutDropout;
      forall t :: 0 <= t < |xs| ==>
        GruLayerOneStep(act, params, prefix, layer, xs[t], Some(MaskOrOnes(mask, |xs|)[t]), At(context, t),
                        if t == 0 then initState else Some(hs[t - 1]), None)
        == Ok(GruStepOut(hs[t], hs[t]))
  {
    forall t | 0 <= t < |xs| {
      OneStepAt(act, params, prefix, layer, xs, mask, context, initState, t);
    }
  }

  /** A row whose mask is 0 at every step keeps its initial state throughout. */
  lemma GruLayerFreeze(act: Act, params: ParamSet, prefix: string, layer: nat, xs: seq<Vector>, mask: seq<real>,
                       context: Option<seq<Vector>>, h0: Vector, dropout: Option<DropoutParams>)
    requires forall t :: 0 <= t < |mask| ==> mask[t] == 0.0
    requires GruLayer(act, params, prefix, layer, xs, Some(mask), context, Some(h0), dropout).Ok?
    ensures var hs := GruLayer(act, params, prefix, layer, xs, Some(mask), context, Some(h0), dropout).value.hiddenWithoutDropout;
      forall t :: 0 <= t < |hs| ==> hs[t] == h0
  {
    var p := GruLayerParamsOf(params, prefix, layer, context.Some?).value;
    GruScanFreeze(act, GruLayerSeqs(p, xs, mask, context, h0), p.shared, h0);
  }

  /** A `P` that `param_init_gru` filled with the same `dim` gives the state default `dim` zeros. */
  lemma GruLayerDefaults(act: Act, params: ParamSet, prefix: string, nin: nat, dim: nat, layer: nat, ctxDim: Option<nat>,
                         xs: seq<Vector>, context: Option<seq<Vector>>, dropout: Option<DropoutParams>)
    requires Conforms(params, GruUnitSchema(prefix, nin, dim, layer, None, ctxDim))
    ensures GruLayer(act, params, prefix, layer, xs, None, context, None, dropout)
         == GruLayer(act, params, prefix, layer, xs, Some(Ones(|xs|)), context, Some(Zeros(dim)), dropout)
  {
    GruLayerParamsConform(params, prefix, nin, dim, layer, ctxDim, false);
  }

  /** On a `P` that `param_init_gru` filled, every lookup of `gru_layer` finds an array of the configured shape. */
  lemma GruLayerParamsConform(params: ParamSet, prefix: string, nin: nat, dim: nat, layer: nat, ctxDim: Option<nat>,
                              withContext: bool)
    requires Conforms(params, GruUnitSchema(prefix, nin, dim, layer, None, ctxDim)) && (withContext ==> ctxDim.Some?)
    ensures var r := GruLayerParamsOf(params, prefix, layer, withContext);
      && r.Ok? && IsMatrix(r.value.W, nin, 2 * dim) && |r.value.b| == 2 * dim
      && IsMatrix(r.value.Wx, nin, dim) && |r.value.bx| == dim
      && IsMatrix(r.value.shared.U, dim, 2 * dim) && IsMatrix(r.value.shared.Ux, dim, dim) && Cols(r.value.shared.Ux) == dim
      && (withContext ==>
            && IsMatrix(r.value.shared.ctxW.value.Wc, ctxDim.value, 2 * dim)
            && IsMatrix(r.value.shared.ctxW.value.Wcx, ctxDim.value, dim))
  {
    var s := GruUnitSchema(prefix, nin, dim, layer, None, ctxDim);
    GetMatConforms(params, s, LayerKey(prefix, Ux, layer), dim, dim);
    GetMatConforms(params, s, LayerKey(prefix, W, layer), nin, 2 * dim);
    GetVecConforms(params, s, LayerKey(prefix, B, layer), 2 * dim);
    GetMatConforms(params, s, LayerKey(prefix, Wx, layer), nin, dim);
    GetVecConforms(params, s, LayerKey(prefix, Bx, layer), dim);
    GetMatConforms(params, s, LayerKey(prefix, U, layer), dim, 2 * dim);
    if withContext {
      GetMatConforms(params, s, LayerKey(prefix, Wc, layer), ctxDim.value, 2 * dim);
      GetMatConforms(params, s, LayerKey(prefix, Wcx, layer), ctxDim.value, dim);
    }
    ColsOf(GetMat(params, LayerKey(prefix, Ux, layer)).value, dim, dim);
  }

  /**
   * On a `P` that `param_init_gru` filled, `gru_layer` computes for every input of the configured
   * widths: with a context exactly when `context_dim` was given for `Wc` and `Wcx`.
   */
  lemma GruLayerSucceeds(act: Act, params: ParamSet, prefix: string, nin: nat, dim: nat, layer: nat, ctxDim: Option<nat>,
                         xs: seq<Vector>, mask: Option<seq<real>>, context: Option<seq<Vector>>, initState: Option<Vector>,
                         dropout: Option<DropoutParams>)
    requires Conforms(params, GruUnitSchema(prefix, nin, dim, layer, None, ctxDim))
    requires RowsOf(xs, nin) && (mask.Some? ==> |mask.value| == |xs|) && (initState.Some? ==> |initState.value| == dim)
    requires context.Some? ==> ctxDim.Some? && |context.value| == |xs| && RowsOf(context.value, ctxDim.value)
    ensures GruLayer(act, params, prefix, layer, xs, mask, context, initState, dropout).Ok?
  {
    GruLayerParamsConform(params, prefix, nin, dim, layer, ctxDim, context.Some?);
  }

  /** Parameters initialised without `context_dim` make `gru_layer` with a context raise `KeyError` on `Wc`. */
  lemma GruLayerNeedsContextWeights(act: Act, params: ParamSet, prefix: string, nin: nat, dim: nat, layer: nat,
                                    xs: seq<Vector>, mask: Option<seq<real>>, context: seq<Vector>,
                                    initState: Option<Vector>, dropout: Option<DropoutParams>)
    requires Conforms(params, GruUnitSchema(prefix, nin, dim, layer, None, None))
    requires params.Keys == GruUnitSchema(prefix, nin, dim, layer, None, None).Keys
    ensures GruLayer(act, params, prefix, layer, xs, mask, Some(context), initState, dropout)
         == Err(MissingKey(LayerKey(prefix, Wc, layer)))
  {
    var s := GruUnitSchema(prefix, nin, dim, layer, None, None);
    GetMatConforms(params, s, LayerKey(prefix, Ux, layer), dim, dim);
    GetMatConforms(params, s, LayerKey(prefix, W, layer), nin, 2 * dim);
    GetVecConforms(params, s, LayerKey(prefix, B, layer), 2 * dim);
    GetMatConforms(params, s, LayerKey(prefix, Wx, layer), nin, dim);
    GetVecConforms(params, s, LayerKey(prefix, Bx, layer), dim);
    GetMatConforms(params, s, LayerKey(prefix, U, layer), dim, 2 * dim);
    assert LayerKey(prefix, Wc, layer) !in s;
  }
}
