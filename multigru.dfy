/**
 * The deep-in-time GRU steps `_multi_gru_step_slice_2` and `_multi_gru_step_slice_attention_2`:
 * within one time step the units run one after another on the running state.
 */
module MultiGru {
  import opened Linalg
  import opened Activations
  import opened Masking
  import opened Gru

  /** One unit's per-step inputs and weights: `x_i`, `xx_i`, `U_i`, `Ux_i`. */
  datatype GruUnit = GruUnit(x: Vector, xx: Vector, U: Matrix, Ux: Matrix)

  /** One unit's context weights `Wc_i`, `Wcx_i`. */
  datatype ContextUnit = ContextUnit(Wc: Matrix, Wcx: Matrix)

  predicate UnitsFit(units: seq<GruUnit>, dim: nat) {
    forall i :: 0 <= i < |units| ==> GruShapes(units[i].x, units[i].xx, dim, units[i].U, units[i].Ux)
  }

  predicate ContextUnitsFit(cunits: seq<ContextUnit>, ctx: Vector, dim: nat) {
    forall i :: 0 <= i < |cunits| ==> ContextShapes(ctx, dim, cunits[i].Wc, cunits[i].Wcx)
  }

  /** The state after the first `k` units have run, each a masked GRU step on the previous unit's result. */
  function Stack(act: Act, m: real, units: seq<GruUnit>, h: Vector, k: nat): (r: Vector)
    requires k <= |units| && UnitsFit(units, |h|)
    ensures |r| == |h|
    decreases k
  {
    if k == 0 then h
    else
      var u := units[k - 1];
      GruStep(act, m, u.x, u.xx, Stack(act, m, units, h, k - 1), u.U, u.Ux)
  }

  /** The unmasked composition of the first `k` unit updates. */
  function UpdateStack(act: Act, units: seq<GruUnit>, h: Vector, k: nat): (r: Vector)
    requires k <= |units| && UnitsFit(units, |h|)
    ensures |r| == |h|
    decreases k
  {
    if k == 0 then h
    else
      var u := units[k - 1];
      GruUpdate(act, |h|, u.x, u.xx, UpdateStack(act, units, h, k - 1), u.U, u.Ux)
  }

  /** A row whose mask value is 0 passes through every unit unchanged. */
  lemma {:induction false} StackFreeze(act: Act, units: seq<GruUnit>, h: Vector, k: nat)
    requires k <= |units| && UnitsFit(units, |h|)
    ensures Stack(act, 0.0, units, h, k) == h
  {
    if k > 0 {
      StackFreeze(act, units, h, k - 1);
    }
  }

  lemma StackIdentityStep(act: Act, units: seq<GruUnit>, h: Vector, k: nat)
    requires 0 < k <= |units| && UnitsFit(units, |h|)
    requires Stack(act, 1.0, units, h, k - 1) == UpdateStack(act, units, h, k - 1)
    ensures Stack(act, 1.0, units, h, k) == UpdateStack(act, units, h, k)
  {
  }

  /** A row whose mask value is 1 gets the plain composition of the unit updates. */
  lemma StackIdentity(act: Act, units: seq<GruUnit>, h: Vector, k: nat)
    requires k <= |units| && UnitsFit(units, |h|)
    ensures Stack(act, 1.0, units, h, k) == UpdateStack(act, units, h, k)
  {
    for i := 0 to k
      invariant Stack(act, 1.0, units, h, i) == UpdateStack(act, units, h, i)
    {
      StackIdentityStep(act, units, h, i + 1);
    }
  }

  /** The state after the first `k` attention units, all reading the same context `ctx`. */
  function StackAttention(act: Act, m: real, units: seq<GruUnit>, cunits: seq<ContextUnit>, ctx: Vector,
                          h: Vector, k: nat): (r: Vector)
    requires k <= |units| == |cunits| && UnitsFit(units, |h|) && ContextUnitsFit(cunits, ctx, |h|)
    ensures |r| == |h|
    decreases k
  {
    if k == 0 then h
    else
      var u, c := units[k - 1], cunits[k - 1];
      GruStepAttention(act, m, u.x, u.xx, ctx, StackAttention(act, m, units, cunits, ctx, h, k - 1), u.U, u.Ux, c.Wc, c.Wcx)
  }

  /** Each unit with its gate inputs shifted by its own context projections. */
  function Shifted(units: seq<GruUnit>, cunits: seq<ContextUnit>, ctx: Vector, dim: nat): (r: seq<GruUnit>)
    requires |units| == |cunits| && UnitsFit(units, dim) && ContextUnitsFit(cunits, ctx, dim)
    ensures |r| == |units| && UnitsFit(r, dim)
    ensures forall i :: 0 <= i < |units| ==> r[i].U == units[i].U && r[i].Ux == units[i].Ux
  {
    seq(|units|, i requires 0 <= i < |units| =>
      GruUnit(Add(units[i].x, VecMat(ctx, cunits[i].Wc, 2 * dim)), Add(units[i].xx, VecMat(ctx, cunits[i].Wcx, dim)),
              units[i].U, units[i].Ux))
  }

  lemma StackAttentionShiftsInputsStep(act: Act, m: real, units: seq<GruUnit>, cunits: seq<ContextUnit>,
                                        ctx: Vector, h: Vector, k: nat)
    requires 0 < k <= |units| == |cunits| && UnitsFit(units, |h|) && ContextUnitsFit(cunits, ctx, |h|)
    requires StackAttention(act, m, units, cunits, ctx, h, k - 1) == Stack(act, m, Shifted(units, cunits, ctx, |h|), h, k - 1)
    ensures StackAttention(act, m, units, cunits, ctx, h, k) == Stack(act, m, Shifted(units, cunits, ctx, |h|), h, k)
  {
    var prev := StackAttention(act, m, units, cunits, ctx, h, k - 1);
    var u, c := units[k - 1], cunits[k - 1];
    AttentionStepShiftsInputs(act, m, u.x, u.xx, ctx, prev, u.U, u.Ux, c.Wc, c.Wcx);
    ShiftedStackUnfold(act, m, units, cunits, ctx, h, k);
  }

  lemma ShiftedStackUnfold(act: Act, m: real, units: seq<GruUnit>, cunits: seq<ContextUnit>, ctx: Vector, h: Vector, k: nat)
    requires 0 < k <= |units| == |cunits| && UnitsFit(units, |h|) && ContextUnitsFit(cunits, ctx, |h|)
    ensures Stack(act, m, Shifted(units, cunits, ctx, |h|), h, k)
         == GruStep(act, m, Add(units[k - 1].x, VecMat(ctx, cunits[k - 1].Wc, 2 * |h|)),
                    Add(units[k - 1].xx, VecMat(ctx, cunits[k - 1].Wcx, |h|)),
                    Stack(act, m, Shifted(units, cunits, ctx, |h|), h, k - 1), units[k - 1].U, units[k - 1].Ux)
  {
    var sh := Shifted(units, cunits, ctx, |h|);
    assert sh[k - 1].x == Add(units[k - 1].x, VecMat(ctx, cunits[k - 1].Wc, 2 * |h|));
  }

  /** The attention stack is the plain stack over inputs shifted by the context. */
  lemma StackAttentionShiftsInputs(act: Act, m: real, units: seq<GruUnit>, cunits: seq<ContextUnit>,
                                   ctx: Vector, h: Vector, k: nat)
    requires k <= |units| == |cunits| && UnitsFit(units, |h|) && ContextUnitsFit(cunits, ctx, |h|)
    ensures StackAttention(act, m, units, cunits, ctx, h, k) == Stack(act, m, Shifted(units, cunits, ctx, |h|), h, k)
  {
    for i := 0 to k
      invariant StackAttention(act, m, units, cunits, ctx, h, i) == Stack(act, m, Shifted(units, cunits, ctx, |h|), h, i)
    {
      StackAttentionShiftsInputsStep(act, m, units, cunits, ctx, h, i + 1);
    }
  }

  /** A row whose mask value is 0 passes through every attention unit unchanged. */
  lemma StackAttentionFreeze(act: Act, units: seq<GruUnit>, cunits: seq<ContextUnit>, ctx: Vector, h: Vector, k: nat)
    requires k <= |units| == |cunits| && UnitsFit(units, |h|) && ContextUnitsFit(cunits, ctx, |h|)
    ensures StackAttention(act, 0.0, units, cunits, ctx, h, k) == h
  {
    StackAttentionShiftsInputs(act, 0.0, units, cunits, ctx, h, k);
    StackFreeze(act, Shifted(units, cunits, ctx, |h|), h, k);
  }

  /**
   * `_multi_gru_step_slice_2`: the loop `for i in range(2)` over the two units, with the
   * block width read once from `Ux_0.shape[1]`.
   */
  method MultiGruStep2(act: Act, m: real, x0: Vector, x1: Vector, xx0: Vector, xx1: Vector, h: Vector,
                       U0: Matrix, U1: Matrix, Ux0: Matrix, Ux1: Matrix) returns (r: Vector)
    requires GruShapes(x0, xx0, |h|, U0, Ux0) && GruShapes(x1, xx1, |h|, U1, Ux1)
    ensures r == Stack(act, m, [GruUnit(x0, xx0, U0, Ux0), GruUnit(x1, xx1, U1, Ux1)], h, 2)
    ensures m == 0.0 ==> r == h
    ensures m == 1.0 ==> r == UpdateStack(act, [GruUnit(x0, xx0, U0, Ux0), GruUnit(x1, xx1, U1, Ux1)], h, 2)
  {
    ColsOf(Ux0, |h|, |h|);
    var dim := Cols(Ux0);
    var units := [GruUnit(x0, xx0, U0, Ux0), GruUnit(x1, xx1, U1, Ux1)];
    r := h;
    for i := 0 to 2
      invariant |r| == |h|
      invariant r == Stack(act, m, units, h, i)
    {
      var u := units[i];
      var ht := GruUpdate(act, dim, u.x, u.xx, r, u.U, u.Ux);
      r := Blend(m, ht, r);
    }
    StackFreeze(act, units, h, 2);
    StackIdentity(act, units, h, 2);
  }

  /** `_multi_gru_step_slice_attention_2`: the same loop with both units reading `context`. */
  method MultiGruStepAttention2(act: Act, m: real, x0: Vector, x1: Vector, xx0: Vector, xx1: Vector, ctx: Vector,
                                h: Vector, U0: Matrix, U1: Matrix, Ux0: Matrix, Ux1: Matrix,
                                Wc0: Matrix, Wc1: Matrix, Wcx0: Matrix, Wcx1: Matrix) returns (r: Vector)
    requires GruShapes(x0, xx0, |h|, U0, Ux0) && GruShapes(x1, xx1, |h|, U1, Ux1)
    requires ContextShapes(ctx, |h|, Wc0, Wcx0) && ContextShapes(ctx, |h|, Wc1, Wcx1)
    ensures r == StackAttention(act, m, [GruUnit(x0, xx0, U0, Ux0), GruUnit(x1, xx1, U1, Ux1)],
                                [ContextUnit(Wc0, Wcx0), ContextUnit(Wc1, Wcx1)], ctx, h, 2)
    ensures m == 0.0 ==> r == h
  {
    ColsOf(Ux0, |h|, |h|);
    var dim := Cols(Ux0);
    var units := [GruUnit(x0, xx0, U0, Ux0), GruUnit(x1, xx1, U1, Ux1)];
    var cunits := [ContextUnit(Wc0, Wcx0), ContextUnit(Wc1, Wcx1)];
    r := h;
    for i := 0 to 2
      invariant |r| == |h|
      invariant r == StackAttention(act, m, units, cunits, ctx, h, i)
    {
      var u, c := units[i], cunits[i];
      var ht := GruUpdateAttention(act, dim, u.x, u.xx, ctx, r, u.U, u.Ux, c.Wc, c.Wcx);
      r := Blend(m, ht, r);
    }
    StackAttentionFreeze(act, units, cunits, ctx, h, 2);
  }
}
