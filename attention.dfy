/**
 * Additive soft attention: scores are exponentiated, optionally multiplied by the
 * source mask and divided by their sum over the source axis (no max-subtraction, no
 * epsilon); the context is the weight-weighted sum of the source vectors.
 */
module Attention {
  import opened Linalg
  import opened Activations
  import opened Wrappers
  import opened Masking

  /** One source position's score `tanh(pre) · U_att + bias`; the reshape to (source, batch) keeps U_att's single column. */
  function Logit(act: Act, pre: Vector, Uatt: Matrix, bias: Vector): real
    requires IsMatrix(Uatt, |pre|, 1) && |bias| == 1
  {
    VecMat(Map(act.tanh, pre), Uatt, 1)[0] + bias[0]
  }

  function Logits(act: Act, pres: seq<Vector>, Uatt: Matrix, bias: Vector): (r: seq<real>)
    requires RowsOf(pres, |Uatt|) && IsMatrix(Uatt, |Uatt|, 1) && |bias| == 1
    ensures |r| == |pres|
  {
    seq(|pres|, s requires 0 <= s < |pres| => Logit(act, pres[s], Uatt, bias))
  }

  /** `alpha = T.exp(alpha)`, then `alpha * context_mask` when a source mask is given. */
  function MaskedExp(act: Act, logits: seq<real>, mask: Option<Vector>): (r: Vector)
    requires mask.Some? ==> |mask.value| == |logits|
    ensures |r| == |logits|
    ensures mask.Some? ==> forall s :: 0 <= s < |logits| && mask.value[s] == 0.0 ==> r[s] == 0.0
  {
    if mask.Some? then seq(|logits|, s requires 0 <= s < |logits| => act.exp(logits[s]) * mask.value[s])
    else seq(|logits|, s requires 0 <= s < |logits| => act.exp(logits[s]))
  }

  /** `alpha / alpha.sum(0, keepdims=True)` for one batch column. */
  function Normalise(e: Vector): (r: Vector)
    requires |e| > 0 ==> Sum(e) != 0.0
    ensures |r| == |e|
    ensures |e| > 0 ==> Sum(r) == 1.0
    ensures forall s :: 0 <= s < |e| && e[s] == 0.0 ==> r[s] == 0.0
  {
    var total := Sum(e);
    var r := seq(|e|, s requires 0 <= s < |e| => e[s] / total);
    if |e| > 0 then
      SumDivide(e, total);
      r
    else r
  }

  /** The alignment weights of one batch column over the source positions. */
  function AttentionWeights(act: Act, logits: seq<real>, mask: Option<Vector>): (r: Vector)
    requires mask.Some? ==> |mask.value| == |logits|
    requires |logits| > 0 ==> Sum(MaskedExp(act, logits, mask)) != 0.0
    ensures |r| == |logits|
    ensures |logits| > 0 ==> Sum(r) == 1.0
    ensures mask.Some? ==> forall s :: 0 <= s < |logits| && mask.value[s] == 0.0 ==> r[s] == 0.0
  {
    Normalise(MaskedExp(act, logits, mask))
  }

  /**
   * The source mask a decoder layer may be given: absent, or one non-negative value per
   * source position with at least one positive position, so that the masked exponentials
   * never sum to zero (an all-masked column would divide 0 by 0).
   */
  predicate SourceMaskOk(mask: Option<Vector>, sourceLen: nat) {
    mask.Some? ==>
      && |mask.value| == sourceLen
      && (forall s :: 0 <= s < sourceLen ==> mask.value[s] >= 0.0)
      && (sourceLen > 0 ==> exists s :: 0 <= s < sourceLen && mask.value[s] > 0.0)
  }

  lemma ProductSigns(a: real, b: real)
    requires a > 0.0 && b >= 0.0
    ensures a * b >= 0.0 && (b > 0.0 ==> a * b > 0.0)
  {
  }

  /** With a positive `exp` and a non-negative mask with a positive entry the normalising sum is positive. */
  lemma DenominatorPositive(act: Act, logits: seq<real>, mask: Option<Vector>)
    requires ExpPositive(act) && SourceMaskOk(mask, |logits|) && |logits| > 0
    ensures Sum(MaskedExp(act, logits, mask)) > 0.0
  {
    var e := MaskedExp(act, logits, mask);
    var k: nat := 0;
    if mask.Some? {
      k :| 0 <= k < |logits| && mask.value[k] > 0.0;
      ExpAt(act, logits[k]);
      ProductSigns(act.exp(logits[k]), mask.value[k]);
      assert e[k] == act.exp(logits[k]) * mask.value[k];
      forall s | 0 <= s < |e| ensures e[s] >= 0.0 {
        ExpAt(act, logits[s]);
        ProductSigns(act.exp(logits[s]), mask.value[s]);
      }
    } else {
      assert e[0] == act.exp(logits[0]);
      forall s | 0 <= s < |e| ensures e[s] >= 0.0 {
        ExpAt(act, logits[s]);
      }
    }
    ExpAt(act, logits[k]);
    SumPositive(e, k);
  }

  /** The attention result of one step: the context vector and the alignment weights. */
  datatype Alignment = Alignment(context: Vector, weights: Vector)

  /**
   * The attention block of the conditional decoder steps (`pstate_ = h1 · W_comb_att`,
   * `tanh(projected_context + pstate_)`, scores, masked exponentials, renormalisation,
   * `ctx_ = (context_ * alpha[:, :, None]).sum(0)`), for one batch row.
   */
  function CondAttention(act: Act, projCtx: seq<Vector>, context: seq<Vector>, ctxMask: Option<Vector>,
                         query: Vector, WComb: Matrix, Uatt: Matrix, cTt: Vector, ctxDim: nat): (r: Alignment)
    requires IsMatrix(WComb, |query|, |Uatt|) && IsMatrix(Uatt, |Uatt|, 1) && |cTt| == 1
    requires RowsOf(projCtx, |Uatt|) && |context| == |projCtx| && RowsOf(context, ctxDim)
    requires ExpPositive(act) && SourceMaskOk(ctxMask, |projCtx|)
    ensures |r.weights| == |projCtx| && |r.context| == ctxDim
    ensures |projCtx| > 0 ==> Sum(r.weights) == 1.0
    ensures ctxMask.Some? ==> forall s :: 0 <= s < |projCtx| && ctxMask.value[s] == 0.0 ==> r.weights[s] == 0.0
  {
    var pstate := VecMat(query, WComb, |Uatt|);
    var pres := seq(|projCtx|, s requires 0 <= s < |projCtx| => Add(projCtx[s], pstate));
    var logits := Logits(act, pres, Uatt, cTt);
    var w := if |logits| > 0 then DenominatorPositive(act, logits, ctxMask); AttentionWeights(act, logits, ctxMask)
             else AttentionWeights(act, logits, ctxMask);
    Alignment(VecMat(w, context, ctxDim), w)
  }

  /** Source vectors at masked positions do not reach the context vector of a given alignment. */
  lemma ContextIgnoresMaskedSources(w: Vector, mask: Vector, values: seq<Vector>, values': seq<Vector>, ctxDim: nat)
    requires |mask| == |w| && IsMatrix(values, |w|, ctxDim) && IsMatrix(values', |w|, ctxDim)
    requires forall s :: 0 <= s < |w| && mask[s] == 0.0 ==> w[s] == 0.0
    requires forall s :: 0 <= s < |w| && mask[s] != 0.0 ==> values[s] == values'[s]
    ensures VecMat(w, values, ctxDim) == VecMat(w, values', ctxDim)
  {
    VecMatIgnoresZeroWeights(w, values, values', ctxDim);
  }

  /** The context is a weighted average: identical source vectors give back that vector. */
  lemma ContextOfIdenticalSources(w: Vector, values: seq<Vector>, v: Vector)
    requires |w| > 0 && Sum(w) == 1.0
    requires IsMatrix(values, |w|, |v|) && forall s :: 0 <= s < |w| ==> values[s] == v
    ensures VecMat(w, values, |v|) == v
  {
    VecMatOfCopies(w, values, v);
    assert Scale(1.0, v) == v;
  }

  /** `a_network` of `attention_layer` at each source position: `et · We_att + ht_1 · Wh_att + Wb_att`. */
  function AttentionLayerPre(et: seq<Vector>, h: Vector, WeAtt: Matrix, WhAtt: Matrix, WbAtt: Vector): (r: seq<Vector>)
    requires IsMatrix(WeAtt, |WeAtt|, |WbAtt|) && RowsOf(et, |WeAtt|) && IsMatrix(WhAtt, |h|, |WbAtt|)
    ensures |r| == |et| && RowsOf(r, |WbAtt|)
  {
    seq(|et|, s requires 0 <= s < |et| => Add(Add(VecMat(et[s], WeAtt, |WbAtt|), VecMat(h, WhAtt, |WbAtt|)), WbAtt))
  }

  /** The scores of `attention_layer` before exponentiation. */
  function AttentionLayerLogits(act: Act, et: seq<Vector>, h: Vector, WeAtt: Matrix, WhAtt: Matrix, WbAtt: Vector,
                                UAtt: Matrix, UbAtt: Vector): (r: seq<real>)
    requires IsMatrix(WeAtt, |WeAtt|, |WbAtt|) && RowsOf(et, |WeAtt|) && IsMatrix(WhAtt, |h|, |WbAtt|)
    requires IsMatrix(UAtt, |WbAtt|, 1) && |UbAtt| == 1
    ensures |r| == |et|
  {
    Logits(act, AttentionLayerPre(et, h, WeAtt, WhAtt, WbAtt), UAtt, UbAtt)
  }

  /** `attention_layer`: the attention-weighted context vector `ctx_t` for one batch row. */
  function AttentionLayer(act: Act, ctxMask: Option<Vector>, et: seq<Vector>, h: Vector,
                          WeAtt: Matrix, WhAtt: Matrix, WbAtt: Vector, UAtt: Matrix, UbAtt: Vector): (r: Vector)
    requires IsMatrix(WeAtt, |WeAtt|, |WbAtt|) && RowsOf(et, |WeAtt|) && IsMatrix(WhAtt, |h|, |WbAtt|)
    requires IsMatrix(UAtt, |WbAtt|, 1) && |UbAtt| == 1
    requires ctxMask.Some? ==> |ctxMask.value| == |et|
    requires |et| > 0 ==> Sum(MaskedExp(act, AttentionLayerLogits(act, et, h, WeAtt, WhAtt, WbAtt, UAtt, UbAtt), ctxMask)) != 0.0
    ensures |r| == |WeAtt|
    ensures exists w: Vector :: && |w| == |et| && (|et| > 0 ==> Sum(w) == 1.0)
                               && (ctxMask.Some? ==> forall s :: 0 <= s < |et| && ctxMask.value[s] == 0.0 ==> w[s] == 0.0)
                               && r == VecMat(w, et, |WeAtt|)
  {
    var w := AttentionWeights(act, AttentionLayerLogits(act, et, h, WeAtt, WhAtt, WbAtt, UAtt, UbAtt), ctxMask);
    assert |w| == |et| && (|et| > 0 ==> Sum(w) == 1.0);
    VecMat(w, et, |WeAtt|)
  }

  /** When every annotation is the same vector, `attention_layer` returns that vector whatever the scores. */
  lemma AttentionLayerOfIdenticalSources(act: Act, ctxMask: Option<Vector>, et: seq<Vector>, h: Vector,
                                         WeAtt: Matrix, WhAtt: Matrix, WbAtt: Vector, UAtt: Matrix, UbAtt: Vector)
    requires IsMatrix(WeAtt, |WeAtt|, |WbAtt|) && RowsOf(et, |WeAtt|) && IsMatrix(WhAtt, |h|, |WbAtt|)
    requires IsMatrix(UAtt, |WbAtt|, 1) && |UbAtt| == 1
    requires ctxMask.Some? ==> |ctxMask.value| == |et|
    requires |et| > 0 && Sum(MaskedExp(act, AttentionLayerLogits(act, et, h, WeAtt, WhAtt, WbAtt, UAtt, UbAtt), ctxMask)) != 0.0
    requires forall s :: 0 <= s < |et| ==> et[s] == et[0]
    ensures AttentionLayer(act, ctxMask, et, h, WeAtt, WhAtt, WbAtt, UAtt, UbAtt) == et[0]
  {
    var w := AttentionWeights(act, AttentionLayerLogits(act, et, h, WeAtt, WhAtt, WbAtt, UAtt, UbAtt), ctxMask);
    ContextOfIdenticalSources(w, et, et[0]);
  }

  lemma MaskedExpAgrees(act: Act, l: seq<real>, l': seq<real>, mask: Vector)
    requires |l| == |l'| == |mask|
    requires forall s :: 0 <= s < |l| && mask[s] != 0.0 ==> l[s] == l'[s]
    ensures MaskedExp(act, l, Some(mask)) == MaskedExp(act, l', Some(mask))
  {
    var e, e' := MaskedExp(act, l, Some(mask)), MaskedExp(act, l', Some(mask));
    forall s | 0 <= s < |l| ensures e[s] == e'[s] {
      if mask[s] != 0.0 {
        assert l[s] == l'[s];
      }
    }
  }

  /** The annotations at masked source positions have no effect on `attention_layer`'s result. */
  lemma AttentionLayerIgnoresMaskedSources(act: Act, mask: Vector, et: seq<Vector>, et': seq<Vector>, h: Vector,
                                           WeAtt: Matrix, WhAtt: Matrix, WbAtt: Vector, UAtt: Matrix, UbAtt: Vector)
    requires IsMatrix(WeAtt, |WeAtt|, |WbAtt|) && RowsOf(et, |WeAtt|) && RowsOf(et', |WeAtt|) && IsMatrix(WhAtt, |h|, |WbAtt|)
    requires IsMatrix(UAtt, |WbAtt|, 1) && |UbAtt| == 1
    requires |mask| == |et| == |et'|
    requires |et| > 0 ==> Sum(MaskedExp(act, AttentionLayerLogits(act, et, h, WeAtt, WhAtt, WbAtt, UAtt, UbAtt), Some(mask))) != 0.0
    requires forall s :: 0 <= s < |et| && mask[s] != 0.0 ==> et[s] == et'[s]
    ensures |et'| > 0 ==> Sum(MaskedExp(act, AttentionLayerLogits(act, et', h, WeAtt, WhAtt, WbAtt, UAtt, UbAtt), Some(mask))) != 0.0
    ensures AttentionLayer(act, Some(mask), et, h, WeAtt, WhAtt, WbAtt, UAtt, UbAtt)
         == AttentionLayer(act, Some(mask), et', h, WeAtt, WhAtt, WbAtt, UAtt, UbAtt)
  {
    var l := AttentionLayerLogits(act, et, h, WeAtt, WhAtt, WbAtt, UAtt, UbAtt);
    var l' := AttentionLayerLogits(act, et', h, WeAtt, WhAtt, WbAtt, UAtt, UbAtt);
    var pre, pre' := AttentionLayerPre(et, h, WeAtt, WhAtt, WbAtt), AttentionLayerPre(et', h, WeAtt, WhAtt, WbAtt);
    forall s | 0 <= s < |et| && mask[s] != 0.0 ensures l[s] == l'[s] {
      assert pre[s] == pre'[s];
    }
    MaskedExpAgrees(act, l, l', mask);
    var w := AttentionWeights(act, l, Some(mask));
    ContextIgnoresMaskedSources(w, mask, et, et', |WeAtt|);
  }
}
