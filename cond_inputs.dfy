/**
 * What the three conditional drivers share: the checks on `context` and `init_state`, the
 * projected source, and the three result sequences `h`, `ctx`, `alpha`.
 */
module CondInputs {
  import opened Linalg
  import opened Activations
  import opened Wrappers
  import opened Masking
  import opened Dropout
  import opened Attention
  import opened Cond
  import opened Lookup

  /** The `context` argument: its number of axes and, for one batch row, one annotation per source position. */
  datatype ContextArg = ContextArg(ndim: nat, annotations: seq<Vector>)

  /** `assert context` and `assert context.ndim == 3`, the first checks of every conditional driver. */
  function CheckContext(context: Option<ContextArg>): (r: Result<seq<Vector>, LayerError>)
    ensures context.None? <==> r == Err(MissingContext)
    ensures context.Some? && context.value.ndim != 3 <==> r == Err(ContextNotRank3)
    ensures r.Ok? <==> context.Some? && context.value.ndim == 3
    ensures r.Ok? ==> r.value == context.value.annotations
  {
    if context.None? then Err(MissingContext)
    else if context.value.ndim != 3 then Err(ContextNotRank3)
    else Ok(context.value.annotations)
  }

  /** The checks of `one_step`: those on the context, then `assert init_state`. */
  function CheckOneStep(context: Option<ContextArg>, initState: Option<Vector>): (r: Result<seq<Vector>, LayerError>)
    ensures CheckContext(context).Err? ==> r == Err(CheckContext(context).error)
    ensures CheckContext(context).Ok? && initState.None? ==> r == Err(MissingInitState)
    ensures r.Ok? <==> CheckContext(context).Ok? && initState.Some?
    ensures r.Ok? ==> r.value == context.value.annotations
  {
    var annotations :- CheckContext(context);
    if initState.None? then Err(MissingInitState) else Ok(annotations)
  }

  /**
   * A `context_mask` the attention can normalise by: non-negative values with at least one
   * positive position, so that no renormalising sum is zero.
   */
  predicate MaskLive(mask: Option<Vector>) {
    mask.Some? ==>
      && (forall s :: 0 <= s < |mask.value| ==> mask.value[s] >= 0.0)
      && (|mask.value| > 0 ==> exists s :: 0 <= s < |mask.value| && mask.value[s] > 0.0)
  }

  /** The shapes under which `T.dot(context, Wc_att) + b_att` and the attention compute. */
  predicate SourceFits(annotations: seq<Vector>, WcAtt: Matrix, bAtt: Vector, ctxMask: Option<Vector>) {
    var ctxDim := |WcAtt|;
    && ctxDim > 0 && RowsOf(annotations, ctxDim) && IsMatrix(WcAtt, ctxDim, ctxDim) && |bAtt| == ctxDim
    && (ctxMask.Some? ==> |ctxMask.value| == |annotations|)
  }

  /** The step's source: `projected_context`, the annotations and `context_mask`. */
  function SourceOf(annotations: seq<Vector>, WcAtt: Matrix, bAtt: Vector, ctxMask: Option<Vector>): (r: Source)
    requires SourceFits(annotations, WcAtt, bAtt, ctxMask)
    ensures r.context == annotations && r.mask == ctxMask && |r.projCtx| == |annotations|
    ensures forall s :: 0 <= s < |annotations| ==> r.projCtx[s] == Add(VecMat(annotations[s], WcAtt, |bAtt|), bAtt)
  {
    Source(Project(annotations, WcAtt, bAtt), annotations, ctxMask)
  }

  /** Everything `SourceOk` asks of a source except the sign of `exp`, which is not a property of the arguments. */
  predicate SourceShaped(src: Source, ctxDim: nat) {
    && RowsOf(src.projCtx, ctxDim) && |src.context| == |src.projCtx| && RowsOf(src.context, ctxDim)
    && SourceMaskOk(src.mask, |src.projCtx|)
  }

  /** A source built from fitting arguments and a non-negative mask with a positive entry is one every conditional step accepts. */
  lemma SourceOfOk(act: Act, annotations: seq<Vector>, WcAtt: Matrix, bAtt: Vector, ctxMask: Option<Vector>)
    requires ExpPositive(act) && MaskLive(ctxMask) && SourceFits(annotations, WcAtt, bAtt, ctxMask)
    ensures SourceShaped(SourceOf(annotations, WcAtt, bAtt, ctxMask), |WcAtt|)
    ensures SourceOk(act, SourceOf(annotations, WcAtt, bAtt, ctxMask), |WcAtt|)
  {
  }

  /**
   * What the attention of one step promises: one weight per source position, weights that sum
   * to 1 and vanish at masked positions, and a context vector that is the weighted sum of the
   * annotations.
   */
  predicate Aligned(ctx: Vector, alpha: Vector, src: Source, ctxDim: nat) {
    && |ctx| == ctxDim && |alpha| == |src.projCtx|
    && (|src.projCtx| > 0 ==> Sum(alpha) == 1.0)
    && (src.mask.Some? && |src.mask.value| == |alpha| ==>
          forall s :: 0 <= s < |alpha| && src.mask.value[s] == 0.0 ==> alpha[s] == 0.0)
    && |src.context| == |alpha| && RowsOf(src.context, ctxDim) && ctx == VecMat(alpha, src.context, ctxDim)
  }

  /** `h` (after the optional dropout), `ctx` and `alpha` per step, and `kw_ret['hidden_without_dropout']`. */
  datatype CondLayerOut = CondLayerOut(output: seq<Vector>, contexts: seq<Vector>, alphas: seq<Vector>,
                                       hiddenWithoutDropout: seq<Vector>)

  /** The three sequences of the scan's result, with the dropout on the first. */
  function SplitCond(outs: seq<CondOut>, dropout: Option<DropoutParams>): (r: CondLayerOut)
    ensures |r.output| == |outs| && |r.contexts| == |outs| && |r.alphas| == |outs| && |r.hiddenWithoutDropout| == |outs|
    ensures forall t :: 0 <= t < |outs| ==>
      r.hiddenWithoutDropout[t] == outs[t].h && r.contexts[t] == outs[t].ctx && r.alphas[t] == outs[t].alpha
    ensures dropout.None? ==> r.output == r.hiddenWithoutDropout
  {
    var hs := seq(|outs|, t requires 0 <= t < |outs| => outs[t].h);
    CondLayerOut(MaybeDropoutSeq(hs, dropout), seq(|outs|, t requires 0 <= t < |outs| => outs[t].ctx),
                 seq(|outs|, t requires 0 <= t < |outs| => outs[t].alpha), hs)
  }

  /**
   * Every step's alignment has one weight per source position, sums to 1 when there is a source
   * position, is 0 wherever `context_mask` is 0, and its context vector is the weighted sum of
   * the annotations.
   */
  predicate LayerAligned(out: CondLayerOut, annotations: seq<Vector>, contextMask: Option<Vector>) {
    && |out.contexts| == |out.alphas|
    && forall t :: 0 <= t < |out.alphas| ==>
         && |out.alphas[t]| == |annotations|
         && (|annotations| > 0 ==> Sum(out.alphas[t]) == 1.0)
         && (contextMask.Some? ==>
               && |contextMask.value| == |annotations|
               && forall s :: 0 <= s < |annotations| && contextMask.value[s] == 0.0 ==> out.alphas[t][s] == 0.0)
         && RowsOf(annotations, |out.contexts[t]|)
         && out.contexts[t] == VecMat(out.alphas[t], annotations, |out.contexts[t]|)
  }

  /** The pairs of a scan whose every step is aligned make an aligned layer result. */
  lemma SplitCondAligned(outs: seq<CondOut>, dropout: Option<DropoutParams>, src: Source, ctxDim: nat)
    requires forall t :: 0 <= t < |outs| ==> Aligned(outs[t].ctx, outs[t].alpha, src, ctxDim)
    requires src.mask.Some? ==> |src.mask.value| == |src.context|
    ensures LayerAligned(SplitCond(outs, dropout), src.context, src.mask)
  {
  }

  /** The results of one call of a conditional step. */
  datatype CondStepOut = CondStepOut(output: Vector, ctx: Vector, alpha: Vector, hiddenWithoutDropout: Vector)

  function SplitCondStep(out: CondOut, dropout: Option<DropoutParams>): (r: CondStepOut)
    ensures r.hiddenWithoutDropout == out.h && r.ctx == out.ctx && r.alpha == out.alpha
    ensures dropout.None? ==> r.output == out.h
    ensures |r.output| == |out.h|
  {
    CondStepOut(MaybeDropoutRow(out.h, dropout), out.ctx, out.alpha, out.h)
  }
}
