/** The driver `multi_gru_layer`: a scan of the deep-in-time step, or one call of it. */
module MultiGruLayers {
  import opened Linalg
  import opened Activations
  import opened Wrappers
  import opened Dropout
  import opened Params
  import opened Lookup
  import opened Scan
  import opened Gru
  import opened MultiGru
  import opened GruLayers

  /** `T.dot(state_below, W_i) + b_i`: one unit's input projection. */
  datatype Projection = Projection(w: Matrix, b: Vector)

  /** `P[_p(prefix, role, layer_id, i)]` for `i` = 1 … `n`, read in that order. */
  function GetUnitMats(params: ParamSet, prefix: string, role: Role, layer: nat, n: nat): (r: Result<seq<Matrix>, LayerError>)
    ensures r.Ok? <==> forall i :: 1 <= i <= n ==> GetMat(params, UnitKey(prefix, role, layer, i)).Ok?
    ensures r.Ok? ==> |r.value| == n && forall i :: 0 <= i < n ==> GetMat(params, UnitKey(prefix, role, layer, i + 1)) == Ok(r.value[i])
    ensures r.Err? ==> exists i :: 1 <= i <= n && FirstMissingMat(params, prefix, role, layer, i) && r.error == GetMat(params, UnitKey(prefix, role, layer, i)).error
    decreases n
  {
    if n == 0 then Ok([])
    else
      var prev :- GetUnitMats(params, prefix, role, layer, n - 1);
      var m :- (assert FirstMissingMat(params, prefix, role, layer, n) || GetMat(params, UnitKey(prefix, role, layer, n)).Ok?;
                GetMat(params, UnitKey(prefix, role, layer, n)));
      Ok(prev + [m])
  }

  /** Unit `i` is the first whose lookup fails. */
  predicate FirstMissingMat(params: ParamSet, prefix: string, role: Role, layer: nat, i: nat) {
    && GetMat(params, UnitKey(prefix, role, layer, i)).Err?
    && forall j :: 1 <= j < i ==> GetMat(params, UnitKey(prefix, role, layer, j)).Ok?
  }

  /** The comprehension `T.dot(state_below, P[W_i]) + P[b_i]` for `i` = 1 … `n`: `W_1`, `b_1`, `W_2`, `b_2`, … */
  function GetUnitProjections(params: ParamSet, prefix: string, wRole: Role, bRole: Role, layer: nat, n: nat)
    : (r: Result<seq<Projection>, LayerError>)
    ensures r.Ok? <==> forall i :: 1 <= i <= n ==>
      GetMat(params, UnitKey(prefix, wRole, layer, i)).Ok? && GetVec(params, UnitKey(prefix, bRole, layer, i)).Ok?
    ensures r.Ok? ==> |r.value| == n && forall i :: 0 <= i < n ==>
      && GetMat(params, UnitKey(prefix, wRole, layer, i + 1)) == Ok(r.value[i].w)
      && GetVec(params, UnitKey(prefix, bRole, layer, i + 1)) == Ok(r.value[i].b)
    decreases n
  {
    if n == 0 then Ok([])
    else
      var prev :- GetUnitProjections(params, prefix, wRole, bRole, layer, n - 1);
      var w :- GetMat(params, UnitKey(prefix, wRole, layer, n));
      var b :- GetVec(params, UnitKey(prefix, bRole, layer, n));
      Ok(prev + [Projection(w, b)])
  }

  /** The non-sequences of the scan: `U_i`, `Ux_i` and, with a context, `Wc_i`, `Wcx_i`. */
  datatype MultiShared = MultiShared(U: seq<Matrix>, Ux: seq<Matrix>, ctxW: Option<seq<ContextUnit>>)

  /** The sequences of the scan: the mask, `state_belows[i]`, `state_belowxs[i]` (unit first, then step), the context. */
  datatype MultiSeqs = MultiSeqs(mask: seq<real>, x: seq<seq<Vector>>, xx: seq<seq<Vector>>, ctx: Option<seq<Vector>>)

  predicate MultiSeqsFit(s: MultiSeqs, w: MultiShared, dim: nat) {
    var n := |w.U|;
    && |w.Ux| == n && |s.x| == n && |s.xx| == n
    && (forall i :: 0 <= i < n ==>
          && |s.x[i]| == |s.mask| && |s.xx[i]| == |s.mask| && RowsOf(s.x[i], 2 * dim) && RowsOf(s.xx[i], dim)
          && IsMatrix(w.U[i], dim, 2 * dim) && IsMatrix(w.Ux[i], dim, dim))
    && (s.ctx.Some? <==> w.ctxW.Some?)
    && (s.ctx.Some? ==>
          && |s.ctx.value| == |s.mask| && |w.ctxW.value| == n
          && forall t :: 0 <= t < |s.mask| ==> ContextUnitsFit(w.ctxW.value, s.ctx.value[t], dim))
  }

  /** The units at step `t`: `x_i`, `xx_i` of that step with `U_i`, `Ux_i`. */
  function UnitsAt(s: MultiSeqs, w: MultiShared, dim: nat, t: nat): (r: seq<GruUnit>)
    requires MultiSeqsFit(s, w, dim) && t < |s.mask|
    ensures |r| == |w.U| && UnitsFit(r, dim)
    ensures forall i :: 0 <= i < |r| ==> r[i] == GruUnit(s.x[i][t], s.xx[i][t], w.U[i], w.Ux[i])
  {
    seq(|w.U|, i requires 0 <= i < |w.U| => GruUnit(s.x[i][t], s.xx[i][t], w.U[i], w.Ux[i]))
  }

  /** The step at `t`: every unit in turn, `_multi_gru_step_slice_2` or, with a context, its attention form. */
  function MultiStepAt(act: Act, s: MultiSeqs, w: MultiShared, t: nat, h: Vector): (r: Vector)
    requires MultiSeqsFit(s, w, |h|) && t < |s.mask|
    ensures |r| == |h|
    ensures s.mask[t] == 0.0 ==> r == h
  {
    var units := UnitsAt(s, w, |h|, t);
    if s.ctx.Some? then
      StackAttentionFreeze(act, units, w.ctxW.value, s.ctx.value[t], h, |units|);
      StackAttention(act, s.mask[t], units, w.ctxW.value, s.ctx.value[t], h, |units|)
    else
      StackFreeze(act, units, h, |units|);
      Stack(act, s.mask[t], units, h, |units|)
  }

  function MultiStepFn(act: Act, s: MultiSeqs, w: MultiShared, dim: nat): (nat, Vector) -> Vector {
    (t: nat, h: Vector) => if t < |s.mask| && |h| == dim && MultiSeqsFit(s, w, dim) then MultiStepAt(act, s, w, t, h) else h
  }

  /** `theano.scan` of the step from `h0`, one state per step. */
  function MultiScan(act: Act, s: MultiSeqs, w: MultiShared, h0: Vector): (r: seq<Vector>)
    requires MultiSeqsFit(s, w, |h0|)
    ensures |r| == |s.mask| && RowsOf(r, |h0|)
  {
    MultiScanWidth(act, s, w, h0);
    Outputs(MultiStepFn(act, s, w, |h0|), h0, |s.mask|)
  }

  lemma MultiScanWidth(act: Act, s: MultiSeqs, w: MultiShared, h0: Vector)
    requires MultiSeqsFit(s, w, |h0|)
    ensures RowsOf(Outputs(MultiStepFn(act, s, w, |h0|), h0, |s.mask|), |h0|)
  {
    OutputsKeep(MultiStepFn(act, s, w, |h0|), h0, |s.mask|, (h: Vector) => |h| == |h0|);
  }

  /** The output at `t` is the step at `t` applied to the output at `t − 1`, or to `h0` at 0. */
  lemma MultiScanStepwise(act: Act, s: MultiSeqs, w: MultiShared, h0: Vector, t: nat)
    requires MultiSeqsFit(s, w, |h0|) && t < |s.mask|
    ensures var r := MultiScan(act, s, w, h0); r[t] == MultiStepAt(act, s, w, t, Before(r, h0, t))
  {
    var f := MultiStepFn(act, s, w, |h0|);
    MultiScanWidth(act, s, w, h0);
    OutputsStepwise(f, h0, |s.mask|);
    var r := Outputs(f, h0, |s.mask|);
    assert r[t] == f(t, Before(r, h0, t));
  }

  /** Rows whose mask is 0 throughout keep `h0`. */
  lemma MultiScanFreeze(act: Act, s: MultiSeqs, w: MultiShared, h0: Vector)
    requires MultiSeqsFit(s, w, |h0|)
    requires forall t :: 0 <= t < |s.mask| ==> s.mask[t] == 0.0
    ensures forall t :: 0 <= t < |s.mask| ==> MultiScan(act, s, w, h0)[t] == h0
  {
    OutputsFixed(MultiStepFn(act, s, w, |h0|), h0, |s.mask|);
  }

  /** The weights `multi_gru_layer` reads, and `dim` as read from `Ux_1`. */
  datatype MultiGruLayerParams = MultiGruLayerParams(dim: nat, proj: seq<Projection>, projx: seq<Projection>, shared: MultiShared)

  /**
   * The lookups of `multi_gru_layer` with `n` units, in its order: `Ux_1` (for `dim`), `W_i`/`b_i`,
   * `Wx_i`/`bx_i`, then `U_i`, `Ux_i` and, with a context, `Wc_i`, `Wcx_i`.
   */
  function MultiGruLayerParamsOf(params: ParamSet, prefix: string, layer: nat, n: nat, withContext: bool)
    : (r: Result<MultiGruLayerParams, LayerError>)
    ensures GetMat(params, UnitKey(prefix, Ux, layer, 1)).Err? ==> r == Err(GetMat(params, UnitKey(prefix, Ux, layer, 1)).error)
    ensures r.Ok? ==>
      && GetMat(params, UnitKey(prefix, Ux, layer, 1)).Ok?
      && r.value.dim == Cols(GetMat(params, UnitKey(prefix, Ux, layer, 1)).value)
    ensures r.Ok? ==> |r.value.proj| == n && |r.value.projx| == n && |r.value.shared.U| == n && |r.value.shared.Ux| == n
    ensures r.Ok? ==> (r.value.shared.ctxW.Some? <==> withContext)
    ensures r.Ok? && withContext ==> |r.value.shared.ctxW.value| == n
  {
    var dimSource :- GetMat(params, UnitKey(prefix, Ux, layer, 1));
    var proj :- GetUnitProjections(params, prefix, W, B, layer, n);
    var projx :- GetUnitProjections(params, prefix, Wx, Bx, layer, n);
    var rec :- GetUnitMats(params, prefix, U, layer, n);
    var recX :- GetUnitMats(params, prefix, Ux, layer, n);
    if withContext then
      var ctxW :- GetUnitMats(params, prefix, Wc, layer, n);
      var ctxWx :- GetUnitMats(params, prefix, Wcx, layer, n);
      var cunits := seq(n, i requires 0 <= i < n => ContextUnit(ctxW[i], ctxWx[i]));
      Ok(MultiGruLayerParams(Cols(dimSource), proj, projx, MultiShared(rec, recX, Some(cunits))))
    else Ok(MultiGruLayerParams(Cols(dimSource), proj, projx, MultiShared(rec, recX, None)))
  }

  /** The shapes under which the graph of `multi_gru_layer` computes. */
  predicate MultiGruLayerFits(p: MultiGruLayerParams, xs: seq<Vector>, mask: seq<real>, ctx: Option<seq<Vector>>, h0: Vector) {
    var dim, n := |h0|, |p.proj|;
    && |mask| == |xs| && |p.projx| == n && |p.shared.U| == n && |p.shared.Ux| == n
    && (forall i :: 0 <= i < n ==>
          && RowsOf(xs, |p.proj[i].w|) && IsMatrix(p.proj[i].w, |p.proj[i].w|, 2 * dim) && |p.proj[i].b| == 2 * dim
          && RowsOf(xs, |p.projx[i].w|) && IsMatrix(p.projx[i].w, |p.projx[i].w|, dim) && |p.projx[i].b| == dim
          && IsMatrix(p.shared.U[i], dim, 2 * dim) && IsMatrix(p.shared.Ux[i], dim, dim))
    && (ctx.Some? <==> p.shared.ctxW.Some?)
    && (ctx.Some? ==>
          && |ctx.value| == |xs| && |p.shared.ctxW.value| == n
          && forall t :: 0 <= t < |xs| ==> ContextUnitsFit(p.shared.ctxW.value, ctx.value[t], dim))
  }

  /** The scan's sequences: the mask, each unit's two input projections, and the context. */
  function MultiGruLayerSeqs(p: MultiGruLayerParams, xs: seq<Vector>, mask: seq<real>, ctx: Option<seq<Vector>>, h0: Vector)
    : (r: MultiSeqs)
    requires MultiGruLayerFits(p, xs, mask, ctx, h0)
    ensures MultiSeqsFit(r, p.shared, |h0|) && r.mask == mask && r.ctx == ctx
    ensures forall i, t :: 0 <= i < |p.proj| && 0 <= t < |xs| ==>
      r.x[i][t] == Add(VecMat(xs[t], p.proj[i].w, 2 * |h0|), p.proj[i].b)
    ensures forall i, t :: 0 <= i < |p.proj| && 0 <= t < |xs| ==>
      r.xx[i][t] == Add(VecMat(xs[t], p.projx[i].w, |h0|), p.projx[i].b)
  {
    var n := |p.proj|;
    MultiSeqs(mask, seq(n, i requires 0 <= i < n => Project(xs, p.proj[i].w, p.proj[i].b)),
              seq(n, i requires 0 <= i < n => Project(xs, p.projx[i].w, p.projx[i].b)), ctx)
  }

  /**
   * `multi_gru_layer` over a whole sequence. `unit_size` other than 2 (the default) reaches the
   * two-unit step functions with the wrong number of arguments.
   */
  function MultiGruLayer(act: Act, params: ParamSet, prefix: string, layer: nat, unitSize: Option<nat>, xs: seq<Vector>,
                         mask: Option<seq<real>>, context: Option<seq<Vector>>, initState: Option<Vector>,
                         dropout: Option<DropoutParams>)
    : (r: Result<GruLayerOut, LayerError>)
    ensures r.Ok? ==> Default(unitSize, 2) == 2
    ensures r.Ok? ==> |r.value.hiddenWithoutDropout| == |xs| && |r.value.output| == |xs|
    ensures r.Ok? && dropout.None? ==> r.value.output == r.value.hiddenWithoutDropout
  {
    var n := Default(unitSize, 2);
    var p :- MultiGruLayerParamsOf(params, prefix, layer, n, context.Some?);
    if n != 2 then Err(ArityMismatch(n))
    else
      var ms := MaskOrOnes(mask, |xs|);
      var h0 := StateOrZeros(initState, p.dim);
      if !MultiGruLayerFits(p, xs, ms, context, h0) then Err(ShapeMismatch)
      else
        var hs := MultiScan(act, MultiGruLayerSeqs(p, xs, ms, context, h0), p.shared, h0);
        Ok(GruLayerOut(MaybeDropoutSeq(hs, dropout), hs))
  }

  /** `multi_gru_layer` with `one_step`: the step called once. */
  function MultiGruLayerOneStep(act: Act, params: ParamSet, prefix: string, layer: nat, unitSize: Option<nat>, x: Vector,
                                mask: Option<real>, context: Option<Vector>, initState: Option<Vector>,
                                dropout: Option<DropoutParams>)
    : (r: Result<GruStepOut, LayerError>)
    ensures r.Ok? ==> Default(unitSize, 2) == 2
    ensures r.Ok? && dropout.None? ==> r.value.output == r.value.hiddenWithoutDropout
    ensures r.Ok? && mask == Some(0.0) && initState.Some? ==> r.value.hiddenWithoutDropout == initState.value
  {
    var n := Default(unitSize, 2);
    var p :- MultiGruLayerParamsOf(params, prefix, layer, n, context.Some?);
    if n != 2 then Err(ArityMismatch(n))
    else
      var m := if mask.Some? then mask.value else 1.0;
      var h0 := StateOrZeros(initState, p.dim);
      if !MultiGruLayerFits(p, [x], [m], Single(context), h0) then Err(ShapeMismatch)
      else
        var h := MultiStepAt(act, MultiGruLayerSeqs(p, [x], [m], Single(context), h0), p.shared, 0, h0);
        Ok(GruStepOut(MaybeDropoutRow(h, dropout), h))
  }

  /** Once every lookup succeeds, a `unit_size` other than 2 raises `TypeError`, with or without `one_step`. */
  lemma MultiGruLayerArity(act: Act, params: ParamSet, prefix: string, layer: nat, n: nat, xs: seq<Vector>, x: Vector,
                           mask: Option<seq<real>>, context: Option<seq<Vector>>, stepContext: Option<Vector>,
                           initState: Option<Vector>, dropout: Option<DropoutParams>)
    requires n != 2
    requires MultiGruLayerParamsOf(params, prefix, layer, n, context.Some?).Ok?
    requires MultiGruLayerParamsOf(params, prefix, layer, n, stepContext.Some?).Ok?
    ensures MultiGruLayer(act, params, prefix, layer, Some(n), xs, mask, context, initState, dropout) == Err(ArityMismatch(n))
    ensures MultiGruLayerOneStep(act, params, prefix, layer, Some(n), x, None, stepContext, initState, dropout)
         == Err(ArityMismatch(n))
  {
  }

  /** One step of the scan as a one-step call: the inputs at `t` and the scanned state before `t`. */
  lemma MultiOneStepAt(act: Act, params: ParamSet, prefix: string, layer: nat, unitSize: Option<nat>, xs: seq<Vector>,
                       mask: Option<seq<real>>, context: Option<seq<Vector>>, initState: Option<Vector>, t: nat)
    requires MultiGruLayer(act, params, prefix, layer, unitSize, xs, mask, context, initState, None).Ok? && t < |xs|
    ensures var hs := MultiGruLayer(act, params, prefix, layer, unitSize, xs, mask, context, initState, None).value.hiddenWithoutDropout;
      MultiGruLayerOneStep(act, params, prefix, layer, unitSize, xs[t], Some(MaskOrOnes(mask, |xs|)[t]), At(context, t),
                           if t == 0 then initState else Some(hs[t - 1]), None)
      == Ok(GruStepOut(hs[t], hs[t]))
  {
    var n := Default(unitSize, 2);
    var p := MultiGruLayerParamsOf(params, prefix, layer, n, context.Some?).value;
    var ms := MaskOrOnes(mask, |xs|);
    var h0 := StateOrZeros(initState, p.dim);
    var s := MultiGruLayerSeqs(p, xs, ms, context, h0);
    var hs := MultiScan(act, s, p.shared, h0);
    var prev := Before(hs, h0, t);
    MultiScanStepwise(act, s, p.shared, h0, t);
    assert StateOrZeros(if t == 0 then initState else Some(hs[t - 1]), p.dim) == prev;
    SingleStepAgrees(act, p, xs, ms, context, h0, t, prev);
  }

  /** The step at `t` of the scan's sequences is the step on the one-element sequences of time `t`. */
  lemma SingleStepAgrees(act: Act, p: MultiGruLayerParams, xs: seq<Vector>, ms: seq<real>, context: Option<seq<Vector>>,
                         h0: Vector, t: nat, prev: Vector)
    requires MultiGruLayerFits(p, xs, ms, context, h0) && t < |xs| && |prev| == |h0|
    ensures MultiGruLayerFits(p, [xs[t]], [ms[t]], Single(At(context, t)), prev)
    ensures MultiStepAt(act, MultiGruLayerSeqs(p, [xs[t]], [ms[t]], Single(At(context, t)), prev), p.shared, 0, prev)
         == MultiStepAt(act, MultiGruLayerSeqs(p, xs, ms, context, h0), p.shared, t, prev)
  {
    var s := MultiGruLayerSeqs(p, xs, ms, context, h0);
    assert MultiGruLayerFits(p, [xs[t]], [ms[t]], Single(At(context, t)), prev);
    var s1 := MultiGruLayerSeqs(p, [xs[t]], [ms[t]], Single(At(context, t)), prev);
    assert UnitsAt(s1, p.shared, |prev|, 0) == UnitsAt(s, p.shared, |prev|, t);
  }

  /** Chained one-step calls, each fed the previous result, reproduce the scanned hidden sequence. */
  lemma MultiOneStepsReplayScan(act: Act, params: ParamSet, prefix: string, layer: nat, unitSize: Option<nat>,
                                xs: seq<Vector>, mask: Option<seq<real>>, context: Option<seq<Vector>>,
                                initState: Option<Vector>)
    requires MultiGruLayer(act, params, prefix, layer, unitSize, xs, mask, context, initState, None).Ok?
    ensures var hs := MultiGruLayer(act, params, prefix, layer, unitSize, xs, mask, context, initState, None).value.hiddenWithoutDropout;
      forall t :: 0 <= t < |xs| ==>
        MultiGruLayerOneStep(act, params, prefix, layer, unitSize, xs[t], Some(MaskOrOnes(mask, |xs|)[t]), At(context, t),
                             if t == 0 then initState else Some(hs[t - 1]), None)
        == Ok(GruStepOut(hs[t], hs[t]))
  {
    forall t | 0 <= t < |xs| {
      MultiOneStepAt(act, params, prefix, layer, unitSize, xs, mask, context, initState, t);
    }
  }

  /** A row whose mask is 0 at every step keeps its initial state through both units of every step. */
  lemma MultiGruLayerFreeze(act: Act, params: ParamSet, prefix: string, layer: nat, unitSize: Option<nat>, xs: seq<Vector>,
                            mask: seq<real>, context: Option<seq<Vector>>, h0: Vector, dropout: Option<DropoutParams>)
    requires forall t :: 0 <= t < |mask| ==> mask[t] == 0.0
    requires MultiGruLayer(act, params, prefix, layer, unitSize, xs, Some(mask), context, Some(h0), dropout).Ok?
    ensures var hs := MultiGruLayer(act, params, prefix, layer, unitSize, xs, Some(mask), context, Some(h0), dropout).value.hiddenWithoutDropout;
      forall t :: 0 <= t < |hs| ==> hs[t] == h0
  {
    var p := MultiGruLayerParamsOf(params, prefix, layer, Default(unitSize, 2), context.Some?).value;
    MultiScanFreeze(act, MultiGruLayerSeqs(p, xs, mask, context, h0), p.shared, h0);
  }

  /** The arrays `param_init_multi_gru` gives unit `i`: every name `multi_gru_layer` reads for that unit. */
  lemma MultiSchemaUnit(prefix: string, nin: nat, dim: nat, layer: nat, ctxDim: Option<nat>, n: nat, i: nat)
    requires 1 <= i <= n
    ensures var s := MultiGruSchema(prefix, nin, dim, layer, ctxDim, n);
      && UnitKey(prefix, W, layer, i) in s && s[UnitKey(prefix, W, layer, i)] == Mat(nin, 2 * dim)
      && UnitKey(prefix, B, layer, i) in s && s[UnitKey(prefix, B, layer, i)] == Vec(2 * dim)
      && UnitKey(prefix, Wx, layer, i) in s && s[UnitKey(prefix, Wx, layer, i)] == Mat(nin, dim)
      && UnitKey(prefix, Bx, layer, i) in s && s[UnitKey(prefix, Bx, layer, i)] == Vec(dim)
      && UnitKey(prefix, U, layer, i) in s && s[UnitKey(prefix, U, layer, i)] == Mat(dim, 2 * dim)
      && UnitKey(prefix, Ux, layer, i) in s && s[UnitKey(prefix, Ux, layer, i)] == Mat(dim, dim)
      && (ctxDim.Some? ==>
            && UnitKey(prefix, Wc, layer, i) in s && s[UnitKey(prefix, Wc, layer, i)] == Mat(ctxDim.value, 2 * dim)
            && UnitKey(prefix, Wcx, layer, i) in s && s[UnitKey(prefix, Wcx, layer, i)] == Mat(ctxDim.value, dim))
  {
    MultiGruKeys(prefix, nin, dim, layer, ctxDim, n, UnitKey(prefix, W, layer, i));
    MultiGruKeys(prefix, nin, dim, layer, ctxDim, n, UnitKey(prefix, B, layer, i));
    MultiGruKeys(prefix, nin, dim, layer, ctxDim, n, UnitKey(prefix, Wx, layer, i));
    MultiGruKeys(prefix, nin, dim, layer, ctxDim, n, UnitKey(prefix, Bx, layer, i));
    MultiGruKeys(prefix, nin, dim, layer, ctxDim, n, UnitKey(prefix, U, layer, i));
    MultiGruKeys(prefix, nin, dim, layer, ctxDim, n, UnitKey(prefix, Ux, layer, i));
    MultiGruKeys(prefix, nin, dim, layer, ctxDim, n, UnitKey(prefix, Wc, layer, i));
    MultiGruKeys(prefix, nin, dim, layer, ctxDim, n, UnitKey(prefix, Wcx, layer, i));
  }

  predicate MatsShaped(r: Result<seq<Matrix>, LayerError>, n: nat, rows: nat, cols: nat) {
    r.Ok? && |r.value| == n && forall i :: 0 <= i < n ==> IsMatrix(r.value[i], rows, cols)
  }

  predicate ProjectionsShaped(r: Result<seq<Projection>, LayerError>, n: nat, rows: nat, cols: nat) {
    r.Ok? && |r.value| == n && forall i :: 0 <= i < n ==> IsMatrix(r.value[i].w, rows, cols) && |r.value[i].b| == cols
  }

  lemma GetUnitMatsConform(params: ParamSet, s: Schema, prefix: string, role: Role, layer: nat, n: nat, rows: nat, cols: nat)
    requires Conforms(params, s)
    requires forall i :: 1 <= i <= n ==> UnitKey(prefix, role, layer, i) in s && s[UnitKey(prefix, role, layer, i)] == Mat(rows, cols)
    ensures MatsShaped(GetUnitMats(params, prefix, role, layer, n), n, rows, cols)
  {
    var r := GetUnitMats(params, prefix, role, layer, n);
    forall i | 1 <= i <= n
      ensures GetMat(params, UnitKey(prefix, role, layer, i)).Ok?
      ensures IsMatrix(GetMat(params, UnitKey(prefix, role, layer, i)).value, rows, cols)
    {
      GetMatConforms(params, s, UnitKey(prefix, role, layer, i), rows, cols);
    }
    assert r.Ok?;
    forall i | 0 <= i < n
      ensures IsMatrix(r.value[i], rows, cols)
    {
      assert GetMat(params, UnitKey(prefix, role, layer, i + 1)) == Ok(r.value[i]);
    }
  }

  lemma GetUnitProjectionsConform(params: ParamSet, s: Schema, prefix: string, wRole: Role, bRole: Role, layer: nat, n: nat,
                                  rows: nat, cols: nat)
    requires Conforms(params, s)
    requires forall i :: 1 <= i <= n ==>
      && UnitKey(prefix, wRole, layer, i) in s && s[UnitKey(prefix, wRole, layer, i)] == Mat(rows, cols)
      && UnitKey(prefix, bRole, layer, i) in s && s[UnitKey(prefix, bRole, layer, i)] == Vec(cols)
    ensures ProjectionsShaped(GetUnitProjections(params, prefix, wRole, bRole, layer, n), n, rows, cols)
  {
    var r := GetUnitProjections(params, prefix, wRole, bRole, layer, n);
    forall i | 1 <= i <= n
      ensures GetMat(params, UnitKey(prefix, wRole, layer, i)).Ok?
      ensures IsMatrix(GetMat(params, UnitKey(prefix, wRole, layer, i)).value, rows, cols)
      ensures GetVec(params, UnitKey(prefix, bRole, layer, i)).Ok?
      ensures |GetVec(params, UnitKey(prefix, bRole, layer, i)).value| == cols
    {
      GetMatConforms(params, s, UnitKey(prefix, wRole, layer, i), rows, cols);
      GetVecConforms(params, s, UnitKey(prefix, bRole, layer, i), cols);
    }
    assert r.Ok?;
    forall i | 0 <= i < n
      ensures IsMatrix(r.value[i].w, rows, cols) && |r.value[i].b| == cols
    {
      assert GetMat(params, UnitKey(prefix, wRole, layer, i + 1)) == Ok(r.value[i].w);
    }
  }

  /** Every unit's arrays have the shapes `param_init_multi_gru` gives them. */
  predicate UnitShapes(p: MultiGruLayerParams, nin: nat, dim: nat, n: nat, ctxDim: Option<nat>) {
    && p.dim == dim && |p.proj| == n && |p.projx| == n && |p.shared.U| == n && |p.shared.Ux| == n
    && (forall i :: 0 <= i < n ==>
          && IsMatrix(p.proj[i].w, nin, 2 * dim) && |p.proj[i].b| == 2 * dim
          && IsMatrix(p.projx[i].w, nin, dim) && |p.projx[i].b| == dim
          && IsMatrix(p.shared.U[i], dim, 2 * dim) && IsMatrix(p.shared.Ux[i], dim, dim))
    && (p.shared.ctxW.Some? ==>
          && ctxDim.Some? && |p.shared.ctxW.value| == n
          && forall i :: 0 <= i < n ==>
               && IsMatrix(p.shared.ctxW.value[i].Wc, ctxDim.value, 2 * dim)
               && IsMatrix(p.shared.ctxW.value[i].Wcx, ctxDim.value, dim))
  }

  /** Inputs of the configured widths fit parameters of the configured shapes. */
  lemma FitsOfShapes(p: MultiGruLayerParams, nin: nat, dim: nat, n: nat, ctxDim: Option<nat>, xs: seq<Vector>,
                     ms: seq<real>, context: Option<seq<Vector>>, h0: Vector)
    requires UnitShapes(p, nin, dim, n, ctxDim) && RowsOf(xs, nin) && |ms| == |xs| && |h0| == dim
    requires context.Some? <==> p.shared.ctxW.Some?
    requires context.Some? ==> |context.value| == |xs| && RowsOf(context.value, ctxDim.value)
    ensures MultiGruLayerFits(p, xs, ms, context, h0)
  {
    if context.Some? {
      forall t | 0 <= t < |xs|
        ensures ContextUnitsFit(p.shared.ctxW.value, context.value[t], dim)
      {
      }
    }
  }

  /** On a `P` that `param_init_multi_gru` filled, every lookup of `multi_gru_layer` finds an array of the configured shape. */
  lemma MultiGruLayerParamsConform(params: ParamSet, prefix: string, nin: nat, dim: nat, layer: nat, ctxDim: Option<nat>,
                                   n: nat, withContext: bool)
    requires Conforms(params, MultiGruSchema(prefix, nin, dim, layer, ctxDim, n)) && n >= 1 && (withContext ==> ctxDim.Some?)
    ensures var r := MultiGruLayerParamsOf(params, prefix, layer, n, withContext);
      r.Ok? && UnitShapes(r.value, nin, dim, n, ctxDim)
  {
    MultiLookupsConform(params, prefix, nin, dim, layer, ctxDim, n);
  }

  /** Each per-unit lookup of `multi_gru_layer` finds `n` arrays of the shape `param_init_multi_gru` gives them. */
  lemma MultiLookupsConform(params: ParamSet, prefix: string, nin: nat, dim: nat, layer: nat, ctxDim: Option<nat>, n: nat)
    requires Conforms(params, MultiGruSchema(prefix, nin, dim, layer, ctxDim, n)) && n >= 1
    ensures GetMat(params, UnitKey(prefix, Ux, layer, 1)).Ok? && Cols(GetMat(params, UnitKey(prefix, Ux, layer, 1)).value) == dim
    ensures ProjectionsShaped(GetUnitProjections(params, prefix, W, B, layer, n), n, nin, 2 * dim)
    ensures ProjectionsShaped(GetUnitProjections(params, prefix, Wx, Bx, layer, n), n, nin, dim)
    ensures MatsShaped(GetUnitMats(params, prefix, U, layer, n), n, dim, 2 * dim)
    ensures MatsShaped(GetUnitMats(params, prefix, Ux, layer, n), n, dim, dim)
    ensures ctxDim.Some? ==> MatsShaped(GetUnitMats(params, prefix, Wc, layer, n), n, ctxDim.value, 2 * dim)
    ensures ctxDim.Some? ==> MatsShaped(GetUnitMats(params, prefix, Wcx, layer, n), n, ctxDim.value, dim)
  {
    var s := MultiGruSchema(prefix, nin, dim, layer, ctxDim, n);
    forall i | 1 <= i <= n {
      MultiSchemaUnit(prefix, nin, dim, layer, ctxDim, n, i);
    }
    GetMatConforms(params, s, UnitKey(prefix, Ux, layer, 1), dim, dim);
    ColsOf(GetMat(params, UnitKey(prefix, Ux, layer, 1)).value, dim, dim);
    GetUnitProjectionsConform(params, s, prefix, W, B, layer, n, nin, 2 * dim);
    GetUnitProjectionsConform(params, s, prefix, Wx, Bx, layer, n, nin, dim);
    GetUnitMatsConform(params, s, prefix, U, layer, n, dim, 2 * dim);
    GetUnitMatsConform(params, s, prefix, Ux, layer, n, dim, dim);
    if ctxDim.Some? {
      GetUnitMatsConform(params, s, prefix, Wc, layer, n, ctxDim.value, 2 * dim);
      GetUnitMatsConform(params, s, prefix, Wcx, layer, n, ctxDim.value, dim);
    }
  }

  /**
   * On a `P` that `param_init_multi_gru` filled with the default two units, `multi_gru_layer`
   * computes for every input of the configured widths.
   */
  lemma MultiGruLayerSucceeds(act: Act, params: ParamSet, prefix: string, nin: nat, dim: nat, layer: nat,
                              ctxDim: Option<nat>, xs: seq<Vector>, mask: Option<seq<real>>, context: Option<seq<Vector>>,
                              initState: Option<Vector>, dropout: Option<DropoutParams>)
    requires Conforms(params, MultiGruSchema(prefix, nin, dim, layer, ctxDim, 2))
    requires RowsOf(xs, nin) && (mask.Some? ==> |mask.value| == |xs|) && (initState.Some? ==> |initState.value| == dim)
    requires context.Some? ==> ctxDim.Some? && |context.value| == |xs| && RowsOf(context.value, ctxDim.value)
    ensures MultiGruLayer(act, params, prefix, layer, None, xs, mask, context, initState, dropout).Ok?
  {
    MultiGruLayerParamsConform(params, prefix, nin, dim, layer, ctxDim, 2, context.Some?);
    var p := MultiGruLayerParamsOf(params, prefix, layer, 2, context.Some?).value;
    FitsOfShapes(p, nin, dim, 2, ctxDim, xs, MaskOrOnes(mask, |xs|), context, StateOrZeros(initState, p.dim));
  }

  /** A missing mask is all ones and a missing initial state is `dim` zeros, `dim` being the width of `Ux_1`. */
  lemma MultiGruLayerDefaults(act: Act, params: ParamSet, prefix: string, nin: nat, dim: nat, layer: nat,
                              ctxDim: Option<nat>, xs: seq<Vector>, context: Option<seq<Vector>>,
                              dropout: Option<DropoutParams>)
    requires Conforms(params, MultiGruSchema(prefix, nin, dim, layer, ctxDim, 2))
    ensures MultiGruLayer(act, params, prefix, layer, None, xs, None, context, None, dropout)
         == MultiGruLayer(act, params, prefix, layer, None, xs, Some(Ones(|xs|)), context, Some(Zeros(dim)), dropout)
  {
    MultiGruSchemaUx1(params, prefix, nin, dim, layer, ctxDim);
  }

  lemma MultiGruSchemaUx1(params: ParamSet, prefix: string, nin: nat, dim: nat, layer: nat, ctxDim: Option<nat>)
    requires Conforms(params, MultiGruSchema(prefix, nin, dim, layer, ctxDim, 2))
    ensures GetMat(params, UnitKey(prefix, Ux, layer, 1)).Ok? && Cols(GetMat(params, UnitKey(prefix, Ux, layer, 1)).value) == dim
  {
    MultiSchemaUnit(prefix, nin, dim, layer, ctxDim, 2, 1);
    GetMatConforms(params, MultiGruSchema(prefix, nin, dim, layer, ctxDim, 2), UnitKey(prefix, Ux, layer, 1), dim, dim);
    ColsOf(GetMat(params, UnitKey(prefix, Ux, layer, 1)).value, dim, dim);
  }
}
