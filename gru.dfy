/** The GRU step functions `_gru_step_slice` and `_gru_step_slice_attention`, for one batch row. */
module Gru {
  import opened Linalg
  import opened Activations
  import opened Masking
  import opened Slicing

  /** The shapes a GRU step needs: `U` is `dim × 2dim`, `Ux` is `dim × dim`, the gate inputs are `2dim` and `dim` wide. */
  predicate GruShapes(x_: Vector, xx_: Vector, dim: nat, U: Matrix, Ux: Matrix) {
    IsMatrix(U, dim, 2 * dim) && IsMatrix(Ux, dim, dim) && |x_| == 2 * dim && |xx_| == dim
  }

  /** The leaky integration `u * ht_1 + (1. - u) * ht_tilde`. */
  function Integrate(u: Vector, h: Vector, hTilde: Vector): (r: Vector)
    requires |u| == |h| == |hTilde|
    ensures |r| == |h|
  {
    Add(Hadamard(u, h), Hadamard(OneMinus(u), hTilde))
  }

  /** Entries whose update gate is 1 keep the previous state; entries whose gate is 0 take the candidate. */
  lemma IntegrateGates(u: Vector, h: Vector, hTilde: Vector, j: nat)
    requires |u| == |h| == |hTilde| && j < |h|
    ensures u[j] == 1.0 ==> Integrate(u, h, hTilde)[j] == h[j]
    ensures u[j] == 0.0 ==> Integrate(u, h, hTilde)[j] == hTilde[j]
  {
  }

  /** The unmasked update of a GRU step with block width `dim` (the width the caller read from a `Ux.shape[1]`). */
  function GruUpdate(act: Act, dim: nat, x_: Vector, xx_: Vector, h: Vector, U: Matrix, Ux: Matrix): (r: Vector)
    requires GruShapes(x_, xx_, |h|, U, Ux) && dim == |h|
    ensures |r| == |h|
  {
    var preact := Add(VecMat(h, U, 2 * dim), x_);
    var r := Map(act.sigmoid, Slice(preact, 0, dim));
    var u := Map(act.sigmoid, Slice(preact, 1, dim));
    var hTilde := Map(act.tanh, Add(Hadamard(VecMat(h, Ux, dim), r), xx_));
    Integrate(u, h, hTilde)
  }

  /** `_gru_step_slice`: `dim` is `Ux.shape[1]`; the update is blended with the previous state by the row's mask value `m`. */
  function GruStep(act: Act, m: real, x_: Vector, xx_: Vector, h: Vector, U: Matrix, Ux: Matrix): (r: Vector)
    requires GruShapes(x_, xx_, |h|, U, Ux)
    ensures |r| == |h|
    ensures m == 0.0 ==> r == h
    ensures m == 1.0 ==> r == GruUpdate(act, |h|, x_, xx_, h, U, Ux)
  {
    var dim := Cols(Ux);
    ColsOf(Ux, |h|, |h|);
    Blend(m, GruUpdate(act, dim, x_, xx_, h, U, Ux), h)
  }

  /** The context weights of the attention variant: `Wc` is `ctx × 2dim`, `Wcx` is `ctx × dim`. */
  predicate ContextShapes(ctx: Vector, dim: nat, Wc: Matrix, Wcx: Matrix) {
    IsMatrix(Wc, |ctx|, 2 * dim) && IsMatrix(Wcx, |ctx|, dim)
  }

  /**
   * The unmasked update of `_gru_step_slice_attention` with block width `dim`: here `sigmoid`
   * is applied to the whole `2dim`-wide preactivation (context term included) before it is sliced.
   */
  function GruUpdateAttention(act: Act, dim: nat, x_: Vector, xx_: Vector, ctx: Vector, h: Vector,
                              U: Matrix, Ux: Matrix, Wc: Matrix, Wcx: Matrix): (r: Vector)
    requires GruShapes(x_, xx_, |h|, U, Ux) && ContextShapes(ctx, |h|, Wc, Wcx) && dim == |h|
    ensures |r| == |h|
  {
    var preact := Map(act.sigmoid, Add(Add(VecMat(h, U, 2 * dim), x_), VecMat(ctx, Wc, 2 * dim)));
    var r := Slice(preact, 0, dim);
    var u := Slice(preact, 1, dim);
    var hTilde := Map(act.tanh, Add(Add(Hadamard(VecMat(h, Ux, dim), r), xx_), VecMat(ctx, Wcx, dim)));
    Integrate(u, h, hTilde)
  }

  /** `_gru_step_slice_attention`, blended by the row's mask value `m`. */
  function GruStepAttention(act: Act, m: real, x_: Vector, xx_: Vector, ctx: Vector, h: Vector,
                            U: Matrix, Ux: Matrix, Wc: Matrix, Wcx: Matrix): (r: Vector)
    requires GruShapes(x_, xx_, |h|, U, Ux) && ContextShapes(ctx, |h|, Wc, Wcx)
    ensures |r| == |h|
    ensures m == 0.0 ==> r == h
    ensures m == 1.0 ==> r == GruUpdateAttention(act, |h|, x_, xx_, ctx, h, U, Ux, Wc, Wcx)
  {
    var dim := Cols(Ux);
    ColsOf(Ux, |h|, |h|);
    Blend(m, GruUpdateAttention(act, dim, x_, xx_, ctx, h, U, Ux, Wc, Wcx), h)
  }

  /**
   * Applying `sigmoid` before slicing changes nothing: the attention update is the plain
   * update whose gate inputs are shifted by the context projections `ctx · Wc` and `ctx · Wcx`.
   */
  lemma AttentionUpdateShiftsInputs(act: Act, x_: Vector, xx_: Vector, ctx: Vector, h: Vector,
                                    U: Matrix, Ux: Matrix, Wc: Matrix, Wcx: Matrix)
    requires GruShapes(x_, xx_, |h|, U, Ux) && ContextShapes(ctx, |h|, Wc, Wcx)
    ensures GruShapes(Add(x_, VecMat(ctx, Wc, 2 * |h|)), Add(xx_, VecMat(ctx, Wcx, |h|)), |h|, U, Ux)
    ensures GruUpdateAttention(act, |h|, x_, xx_, ctx, h, U, Ux, Wc, Wcx)
         == GruUpdate(act, |h|, Add(x_, VecMat(ctx, Wc, 2 * |h|)), Add(xx_, VecMat(ctx, Wcx, |h|)), h, U, Ux)
  {
    var dim := |h|;
    var hU, cWc := VecMat(h, U, 2 * dim), VecMat(ctx, Wc, 2 * dim);
    AddAssoc(hU, x_, cWc);
    var preact := Add(hU, Add(x_, cWc));
    SliceMapCommutes(act.sigmoid, preact, 0, dim);
    SliceMapCommutes(act.sigmoid, preact, 1, dim);
    var r := Map(act.sigmoid, Slice(preact, 0, dim));
    AddAssoc(Hadamard(VecMat(h, Ux, dim), r), xx_, VecMat(ctx, Wcx, dim));
  }

  /** The same for the masked steps. */
  lemma AttentionStepShiftsInputs(act: Act, m: real, x_: Vector, xx_: Vector, ctx: Vector, h: Vector,
                                  U: Matrix, Ux: Matrix, Wc: Matrix, Wcx: Matrix)
    requires GruShapes(x_, xx_, |h|, U, Ux) && ContextShapes(ctx, |h|, Wc, Wcx)
    ensures GruShapes(Add(x_, VecMat(ctx, Wc, 2 * |h|)), Add(xx_, VecMat(ctx, Wcx, |h|)), |h|, U, Ux)
    ensures GruStepAttention(act, m, x_, xx_, ctx, h, U, Ux, Wc, Wcx)
         == GruStep(act, m, Add(x_, VecMat(ctx, Wc, 2 * |h|)), Add(xx_, VecMat(ctx, Wcx, |h|)), h, U, Ux)
  {
    ColsOf(Ux, |h|, |h|);
    AttentionUpdateShiftsInputs(act, x_, xx_, ctx, h, U, Ux, Wc, Wcx);
  }
}
