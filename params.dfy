/**
 * The parameter schemas of the `param_init_*` functions: which keys each one writes into the
 * `params` dictionary and the shape of the array under each key. The random values are not part
 * of the model.
 */
module Params {
  import opened Linalg
  import opened Wrappers

  /**
   * The parameter names, in the spelling of the source: `W`, `b`, `U`, `Wx`, `bx`, `Ux`, `Wc`,
   * `Wcx`, `U_nl`, `b_nl`, `Ux_nl`, `bx_nl`, `W_comb_att`, `Wc_att`, `b_att`, `U_att`, `c_tt`.
   */
  datatype Role = W | B | U | Wx | Bx | Ux | Wc | Wcx | Unl | Bnl | Uxnl | Bxnl | WCombAtt | WcAtt | BAtt | UAtt | CTt

  /** `_p(prefix, name[, layer_id[, unit]])`: the feed-forward layer's keys carry no layer id. */
  datatype Key = Key(prefix: string, role: Role, layer: Option<nat>, unit: Option<nat>)

  /** A `rows × cols` weight matrix or a bias vector of `len` entries. */
  datatype Shape = Mat(rows: nat, cols: nat) | Vec(len: nat)

  /** The last axis of a shape, the one the step functions slice. */
  function Width(s: Shape): nat {
    match s
    case Mat(_, c) => c
    case Vec(n) => n
  }

  type Schema = map<Key, Shape>

  /** The configuration entries the initialisers fall back on: `O['dim_proj']` and `O['dim']`. */
  datatype Config = Config(dimProj: nat, dim: nat)

  /** A keyword argument with a default: `None` is an argument left out. */
  function Default(arg: Option<nat>, dflt: nat): (r: nat)
    ensures arg.Some? ==> r == arg.value
    ensures arg.None? ==> r == dflt
  {
    if arg.Some? then arg.value else dflt
  }

  /** `param_init_feed_forward`: `W` is `nin × nout` and `b` has `nout` entries (both default to `O['dim_proj']`). */
  function FeedForwardInto(m: Schema, prefix: string, nin: nat, nout: nat): Schema {
    m[Key(prefix, W, None, None) := Mat(nin, nout)][Key(prefix, B, None, None) := Vec(nout)]
  }

  predicate GruRole(r: Role) {
    r == W || r == B || r == U || r == Wx || r == Bx || r == Ux
  }

  predicate ContextRole(r: Role) {
    r == Wc || r == Wcx
  }

  /**
   * The dictionary `m` after the writes of one GRU unit: the body of `param_init_gru` with `unit`
   * absent, one loop pass of `param_init_multi_gru` otherwise.
   */
  function GruUnitInto(m: Schema, prefix: string, nin: nat, dim: nat, layer: nat, unit: Option<nat>,
                       ctxDim: Option<nat>): Schema {
    var base := m
      [Key(prefix, W, Some(layer), unit) := Mat(nin, 2 * dim)]
      [Key(prefix, B, Some(layer), unit) := Vec(2 * dim)]
      [Key(prefix, U, Some(layer), unit) := Mat(dim, 2 * dim)]
      [Key(prefix, Wx, Some(layer), unit) := Mat(nin, dim)]
      [Key(prefix, Bx, Some(layer), unit) := Vec(dim)]
      [Key(prefix, Ux, Some(layer), unit) := Mat(dim, dim)];
    if ctxDim.Some? then
      base[Key(prefix, Wc, Some(layer), unit) := Mat(ctxDim.value, 2 * dim)]
          [Key(prefix, Wcx, Some(layer), unit) := Mat(ctxDim.value, dim)]
    else base
  }

  /** The keys one GRU unit writes, and their shapes. */
  function GruUnitSchema(prefix: string, nin: nat, dim: nat, layer: nat, unit: Option<nat>, ctxDim: Option<nat>): Schema {
    GruUnitInto(map[], prefix, nin, dim, layer, unit, ctxDim)
  }

  /** The dictionary `m` after the first `n` passes (units `1..n`) of the `param_init_multi_gru` loop. */
  function MultiGruInto(m: Schema, prefix: string, nin: nat, dim: nat, layer: nat, ctxDim: Option<nat>, n: nat): Schema
    decreases n
  {
    if n == 0 then m
    else GruUnitInto(MultiGruInto(m, prefix, nin, dim, layer, ctxDim, n - 1), prefix, nin, dim, layer, Some(n), ctxDim)
  }

  function MultiGruSchema(prefix: string, nin: nat, dim: nat, layer: nat, ctxDim: Option<nat>, n: nat): Schema {
    MultiGruInto(map[], prefix, nin, dim, layer, ctxDim, n)
  }

  predicate CondUnitRole(r: Role) {
    GruRole(r) || ContextRole(r) || r == Unl || r == Bnl || r == Uxnl || r == Bxnl
  }

  /** One pass of the conditional GRU initialisers over the per-unit names (the `*_nonlin` sizes feed the recurrent weights). */
  function CondUnitInto(m: Schema, prefix: string, nin: nat, dim: nat, dimctx: nat, ninNl: nat, dimNl: nat, layer: nat,
                        unit: Option<nat>): Schema {
    m
      [Key(prefix, W, Some(layer), unit) := Mat(nin, 2 * dim)]
      [Key(prefix, B, Some(layer), unit) := Vec(2 * dim)]
      [Key(prefix, U, Some(layer), unit) := Mat(dimNl, 2 * dimNl)]
      [Key(prefix, Wx, Some(layer), unit) := Mat(ninNl, dimNl)]
      [Key(prefix, Ux, Some(layer), unit) := Mat(dimNl, dimNl)]
      [Key(prefix, Bx, Some(layer), unit) := Vec(dimNl)]
      [Key(prefix, Unl, Some(layer), unit) := Mat(dimNl, 2 * dimNl)]
      [Key(prefix, Bnl, Some(layer), unit) := Vec(2 * dimNl)]
      [Key(prefix, Uxnl, Some(layer), unit) := Mat(dimNl, dimNl)]
      [Key(prefix, Bxnl, Some(layer), unit) := Vec(dimNl)]
      [Key(prefix, Wc, Some(layer), unit) := Mat(dimctx, 2 * dim)]
      [Key(prefix, Wcx, Some(layer), unit) := Mat(dimctx, dim)]
  }

  predicate AttentionRole(r: Role) {
    r == WCombAtt || r == WcAtt || r == BAtt || r == UAtt || r == CTt
  }

  /** The attention names the conditional initialisers write last; they carry no unit index. */
  function AttentionInto(m: Schema, prefix: string, dim: nat, dimctx: nat, layer: nat): Schema {
    m
      [Key(prefix, WCombAtt, Some(layer), None) := Mat(dim, dimctx)]
      [Key(prefix, WcAtt, Some(layer), None) := Mat(dimctx, dimctx)]
      [Key(prefix, BAtt, Some(layer), None) := Vec(dimctx)]
      [Key(prefix, UAtt, Some(layer), None) := Mat(dimctx, 1)]
      [Key(prefix, CTt, Some(layer), None) := Vec(1)]
  }

  /** `param_init_gru_cond`. */
  function GruCondInto(m: Schema, prefix: string, nin: nat, dim: nat, dimctx: nat, ninNl: nat, dimNl: nat, layer: nat)
    : Schema
  {
    AttentionInto(CondUnitInto(m, prefix, nin, dim, dimctx, ninNl, dimNl, layer, None), prefix, dim, dimctx, layer)
  }

  /** The first `n` passes of the `param_init_multi_gru_cond` loop. */
  function MultiCondUnitsInto(m: Schema, prefix: string, nin: nat, dim: nat, dimctx: nat, ninNl: nat, dimNl: nat,
                              layer: nat, n: nat): Schema
    decreases n
  {
    if n == 0 then m
    else CondUnitInto(MultiCondUnitsInto(m, prefix, nin, dim, dimctx, ninNl, dimNl, layer, n - 1),
                      prefix, nin, dim, dimctx, ninNl, dimNl, layer, Some(n))
  }

  /** `param_init_multi_gru_cond`: the units `1..n`, then the shared attention names. */
  function MultiGruCondInto(m: Schema, prefix: string, nin: nat, dim: nat, dimctx: nat, ninNl: nat, dimNl: nat,
                            layer: nat, n: nat): Schema {
    AttentionInto(MultiCondUnitsInto(m, prefix, nin, dim, dimctx, ninNl, dimNl, layer, n), prefix, dim, dimctx, layer)
  }

  /** `param_init_lstm`: every gate weight and bias is `4dim` wide. */
  function LstmInto(m: Schema, prefix: string, nin: nat, dim: nat, layer: nat, ctxDim: Option<nat>): Schema {
    var base := m
      [Key(prefix, W, Some(layer), None) := Mat(nin, 4 * dim)]
      [Key(prefix, U, Some(layer), None) := Mat(dim, 4 * dim)]
      [Key(prefix, B, Some(layer), None) := Vec(4 * dim)];
    if ctxDim.Some? then base[Key(prefix, Wc, Some(layer), None) := Mat(ctxDim.value, 4 * dim)] else base
  }

  /** Why an initialiser could not build its arrays. */
  datatype InitError =
    /** `np.concatenate` along the columns of blocks whose row counts differ. */
    | RowMismatch(rows: seq<nat>)

  /**
   * `param_init_lstm_cond`: `W` joins three `nin`-row blocks with one `nin_nonlin`-row block
   * column-wise, which fails before anything is stored unless the row counts agree.
   */
  function LstmCondInto(m: Schema, prefix: string, nin: nat, dim: nat, dimctx: nat, ninNl: nat, dimNl: nat, layer: nat)
    : Result<Schema, InitError>
  {
    if ninNl != nin then Err(RowMismatch([nin, nin, nin, ninNl]))
    else
      var lstm := m
        [Key(prefix, W, Some(layer), None) := Mat(nin, 4 * dim)]
        [Key(prefix, B, Some(layer), None) := Vec(4 * dim)]
        [Key(prefix, U, Some(layer), None) := Mat(dimNl, 4 * dimNl)]
        [Key(prefix, Unl, Some(layer), None) := Mat(dimNl, 4 * dimNl)]
        [Key(prefix, Bnl, Some(layer), None) := Vec(4 * dimNl)]
        [Key(prefix, Wc, Some(layer), None) := Mat(dimctx, 4 * dim)];
      Ok(AttentionInto(lstm, prefix, dim, dimctx, layer))
  }

  /** A key of layer `layer` and unit `unit` under `prefix`. */
  predicate Owned(k: Key, prefix: string, layer: nat, unit: Option<nat>) {
    k.prefix == prefix && k.layer == Some(layer) && k.unit == unit
  }

  /**
   * One GRU unit writes exactly `W, b, U, Wx, bx, Ux`, and `Wc, Wcx` exactly when `context_dim`
   * is given; every other entry of the dictionary is left as it was.
   */
  lemma GruUnitKeys(m: Schema, prefix: string, nin: nat, dim: nat, layer: nat, unit: Option<nat>, ctxDim: Option<nat>,
                    k: Key)
    ensures var written := Owned(k, prefix, layer, unit) && (GruRole(k.role) || (ctxDim.Some? && ContextRole(k.role)));
      && (k in GruUnitInto(m, prefix, nin, dim, layer, unit, ctxDim) <==> written || k in m)
      && (written ==> GruUnitInto(m, prefix, nin, dim, layer, unit, ctxDim)[k] == GruUnitSchema(prefix, nin, dim, layer, unit, ctxDim)[k])
      && (!written && k in m ==> GruUnitInto(m, prefix, nin, dim, layer, unit, ctxDim)[k] == m[k])
  {
  }

  /** The widths of a GRU unit's arrays: the gate arrays are `2dim` wide, the candidate arrays `dim`. */
  lemma GruUnitWidths(prefix: string, nin: nat, dim: nat, layer: nat, unit: Option<nat>, ctxDim: Option<nat>, k: Key)
    requires k in GruUnitSchema(prefix, nin, dim, layer, unit, ctxDim)
    ensures Width(GruUnitSchema(prefix, nin, dim, layer, unit, ctxDim)[k]) == (if k.role in {W, B, U, Wc} then 2 * dim else dim)
  {
  }

  /** `param_init_multi_gru` writes, for each unit `1..n`, exactly the keys and shapes of one GRU unit. */
  lemma {:induction false} MultiGruKeys(prefix: string, nin: nat, dim: nat, layer: nat, ctxDim: Option<nat>, n: nat, k: Key)
    ensures k in MultiGruSchema(prefix, nin, dim, layer, ctxDim, n)
        <==> k.unit.Some? && 1 <= k.unit.value <= n && k in GruUnitSchema(prefix, nin, dim, layer, k.unit, ctxDim)
    ensures k in MultiGruSchema(prefix, nin, dim, layer, ctxDim, n)
        ==> MultiGruSchema(prefix, nin, dim, layer, ctxDim, n)[k] == GruUnitSchema(prefix, nin, dim, layer, k.unit, ctxDim)[k]
    decreases n
  {
    if n > 0 {
      MultiGruKeys(prefix, nin, dim, layer, ctxDim, n - 1, k);
      GruUnitKeys(MultiGruSchema(prefix, nin, dim, layer, ctxDim, n - 1), prefix, nin, dim, layer, Some(n), ctxDim, k);
      if k.unit.Some? {
        GruUnitKeys(map[], prefix, nin, dim, layer, k.unit, ctxDim, k);
      }
    }
  }

  /** One conditional unit writes the twelve per-unit names and leaves every other entry as it was. */
  lemma CondUnitKeys(m: Schema, prefix: string, nin: nat, dim: nat, dimctx: nat, ninNl: nat, dimNl: nat, layer: nat,
                     unit: Option<nat>, k: Key)
    ensures var written := Owned(k, prefix, layer, unit) && CondUnitRole(k.role);
      var r := CondUnitInto(m, prefix, nin, dim, dimctx, ninNl, dimNl, layer, unit);
      && (k in r <==> written || k in m)
      && (written ==> r[k] == CondUnitInto(map[], prefix, nin, dim, dimctx, ninNl, dimNl, layer, unit)[k])
      && (!written && k in m ==> r[k] == m[k])
  {
  }

  lemma AttentionKeys(m: Schema, prefix: string, dim: nat, dimctx: nat, layer: nat, k: Key)
    ensures var written := Owned(k, prefix, layer, None) && AttentionRole(k.role);
      var r := AttentionInto(m, prefix, dim, dimctx, layer);
      && (k in r <==> written || k in m)
      && (!written && k in m ==> r[k] == m[k])
  {
  }

  /** `param_init_multi_gru_cond` writes, for each unit `1..n`, the per-unit names, plus the attention names once. */
  lemma {:induction false} MultiGruCondKeys(prefix: string, nin: nat, dim: nat, dimctx: nat, ninNl: nat, dimNl: nat,
                                            layer: nat, n: nat, k: Key)
    ensures k in MultiGruCondInto(map[], prefix, nin, dim, dimctx, ninNl, dimNl, layer, n)
        <==> || (k.unit.Some? && 1 <= k.unit.value <= n && Owned(k, prefix, layer, k.unit) && CondUnitRole(k.role))
             || (Owned(k, prefix, layer, None) && AttentionRole(k.role))
  {
    for i := 0 to n
      invariant k in MultiCondUnitsInto(map[], prefix, nin, dim, dimctx, ninNl, dimNl, layer, i)
            <==> k.unit.Some? && 1 <= k.unit.value <= i && Owned(k, prefix, layer, k.unit) && CondUnitRole(k.role)
    {
      CondUnitKeys(MultiCondUnitsInto(map[], prefix, nin, dim, dimctx, ninNl, dimNl, layer, i),
                   prefix, nin, dim, dimctx, ninNl, dimNl, layer, Some(i + 1), k);
    }
    AttentionKeys(MultiCondUnitsInto(map[], prefix, nin, dim, dimctx, ninNl, dimNl, layer, n), prefix, dim, dimctx, layer, k);
  }

  /** `param_init_lstm` writes `W, U, b`, and `Wc` exactly when `context_dim` is given, all `4dim` wide. */
  lemma LstmKeys(prefix: string, nin: nat, dim: nat, layer: nat, ctxDim: Option<nat>, k: Key)
    ensures k in LstmInto(map[], prefix, nin, dim, layer, ctxDim)
        <==> Owned(k, prefix, layer, None) && (k.role in {W, U, B} || (ctxDim.Some? && k.role == Wc))
    ensures k in LstmInto(map[], prefix, nin, dim, layer, ctxDim) ==> Width(LstmInto(map[], prefix, nin, dim, layer, ctxDim)[k]) == 4 * dim
  {
  }

  /** `param_init_lstm_cond` succeeds exactly when `nin_nonlin == nin`; its input-side arrays are `4dim` wide. */
  lemma LstmCondKeys(prefix: string, nin: nat, dim: nat, dimctx: nat, ninNl: nat, dimNl: nat, layer: nat, k: Key)
    ensures LstmCondInto(map[], prefix, nin, dim, dimctx, ninNl, dimNl, layer).Ok? <==> ninNl == nin
    ensures var r := LstmCondInto(map[], prefix, nin, dim, dimctx, ninNl, dimNl, layer);
      r.Ok? ==> (k in r.value <==> Owned(k, prefix, layer, None) && (k.role in {W, B, U, Unl, Bnl, Wc} || AttentionRole(k.role)))
    ensures var r := LstmCondInto(map[], prefix, nin, dim, dimctx, ninNl, dimNl, layer);
      r.Ok? && k in r.value && k.role in {W, B, Wc} ==> Width(r.value[k]) == 4 * dim
    ensures var r := LstmCondInto(map[], prefix, nin, dim, dimctx, ninNl, dimNl, layer);
      r.Ok? && k in r.value && k.role in {U, Unl, Bnl} ==> Width(r.value[k]) == 4 * dimNl
  {
  }

  /** The values under the keys: a matrix or a vector. */
  datatype Param = M(m: Matrix) | V(v: Vector)

  type ParamSet = map<Key, Param>

  predicate Fits(p: Param, s: Shape) {
    match s
    case Mat(r, c) => p.M? && IsMatrix(p.m, r, c)
    case Vec(n) => p.V? && |p.v| == n
  }

  /** `params` holds every key of the schema with an array of the schema's shape (and may hold more). */
  predicate Conforms(params: ParamSet, s: Schema) {
    forall k :: k in s ==> k in params && Fits(params[k], s[k])
  }

  /** The learnable parameters, as the `params` dictionary the initialisers fill in place, by shape. */
  class ParamTable {
    var shapes: Schema

    constructor()
      ensures shapes == map[]
    {
      shapes := map[];
    }

    /** `param_init_feed_forward`: `nin` and `nout` default to `O['dim_proj']`. */
    method InitFeedForward(cfg: Config, prefix: string, nin: Option<nat>, nout: Option<nat>)
      modifies this
      ensures shapes == FeedForwardInto(old(shapes), prefix, Default(nin, cfg.dimProj), Default(nout, cfg.dimProj))
    {
      var nin := Default(nin, cfg.dimProj);
      var nout := Default(nout, cfg.dimProj);
      shapes := shapes[Key(prefix, W, None, None) := Mat(nin, nout)];
      shapes := shapes[Key(prefix, B, None, None) := Vec(nout)];
    }

    /** The body of `param_init_gru`, which one pass of the `param_init_multi_gru` loop repeats. */
    method AddGruUnit(prefix: string, nin: nat, dim: nat, layer: nat, unit: Option<nat>, ctxDim: Option<nat>)
      modifies this
      ensures shapes == GruUnitInto(old(shapes), prefix, nin, dim, layer, unit, ctxDim)
    {
      shapes := shapes[Key(prefix, W, Some(layer), unit) := Mat(nin, 2 * dim)];
      shapes := shapes[Key(prefix, B, Some(layer), unit) := Vec(2 * dim)];
      shapes := shapes[Key(prefix, U, Some(layer), unit) := Mat(dim, 2 * dim)];
      shapes := shapes[Key(prefix, Wx, Some(layer), unit) := Mat(nin, dim)];
      shapes := shapes[Key(prefix, Bx, Some(layer), unit) := Vec(dim)];
      shapes := shapes[Key(prefix, Ux, Some(layer), unit) := Mat(dim, dim)];
      if ctxDim.Some? {
        shapes := shapes[Key(prefix, Wc, Some(layer), unit) := Mat(ctxDim.value, 2 * dim)];
        shapes := shapes[Key(prefix, Wcx, Some(layer), unit) := Mat(ctxDim.value, dim)];
      }
    }

    /** `param_init_gru`: `nin` and `dim` default to `O['dim_proj']`, `layer_id` to 0. */
    method InitGru(cfg: Config, prefix: string, nin: Option<nat>, dim: Option<nat>, layerId: Option<nat>,
                   contextDim: Option<nat>)
      modifies this
      ensures shapes == GruUnitInto(old(shapes), prefix, Default(nin, cfg.dimProj), Default(dim, cfg.dimProj),
                                    Default(layerId, 0), None, contextDim)
    {
      AddGruUnit(prefix, Default(nin, cfg.dimProj), Default(dim, cfg.dimProj), Default(layerId, 0), None, contextDim);
    }

    /** `param_init_multi_gru`: the loop over the unit indices `1..unit_size` (`unit_size` defaults to 2). */
    method InitMultiGru(cfg: Config, prefix: string, nin: Option<nat>, dim: Option<nat>, layerId: Option<nat>,
                        contextDim: Option<nat>, unitSize: Option<nat>)
      modifies this
      ensures shapes == MultiGruInto(old(shapes), prefix, Default(nin, cfg.dimProj), Default(dim, cfg.dimProj),
                                     Default(layerId, 0), contextDim, Default(unitSize, 2))
    {
      var nin, dim, layer, n := Default(nin, cfg.dimProj), Default(dim, cfg.dimProj), Default(layerId, 0), Default(unitSize, 2);
      for i := 1 to n + 1
        invariant shapes == MultiGruInto(old(shapes), prefix, nin, dim, layer, contextDim, i - 1)
      {
        AddGruUnit(prefix, nin, dim, layer, Some(i), contextDim);
      }
    }

    /** One pass of the conditional GRU initialisers over the per-unit names. */
    method AddCondUnit(prefix: string, nin: nat, dim: nat, dimctx: nat, ninNl: nat, dimNl: nat, layer: nat,
                       unit: Option<nat>)
      modifies this
      ensures shapes == CondUnitInto(old(shapes), prefix, nin, dim, dimctx, ninNl, dimNl, layer, unit)
    {
      shapes := shapes[Key(prefix, W, Some(layer), unit) := Mat(nin, 2 * dim)];
      shapes := shapes[Key(prefix, B, Some(layer), unit) := Vec(2 * dim)];
      shapes := shapes[Key(prefix, U, Some(layer), unit) := Mat(dimNl, 2 * dimNl)];
      shapes := shapes[Key(prefix, Wx, Some(layer), unit) := Mat(ninNl, dimNl)];
      shapes := shapes[Key(prefix, Ux, Some(layer), unit) := Mat(dimNl, dimNl)];
      shapes := shapes[Key(prefix, Bx, Some(layer), unit) := Vec(dimNl)];
      shapes := shapes[Key(prefix, Unl, Some(layer), unit) := Mat(dimNl, 2 * dimNl)];
      shapes := shapes[Key(prefix, Bnl, Some(layer), unit) := Vec(2 * dimNl)];
      shapes := shapes[Key(prefix, Uxnl, Some(layer), unit) := Mat(dimNl, dimNl)];
      shapes := shapes[Key(prefix, Bxnl, Some(layer), unit) := Vec(dimNl)];
      shapes := shapes[Key(prefix, Wc, Some(layer), unit) := Mat(dimctx, 2 * dim)];
      shapes := shapes[Key(prefix, Wcx, Some(layer), unit) := Mat(dimctx, dim)];
    }

    /** The attention names the conditional initialisers write last. */
    method AddAttention(prefix: string, dim: nat, dimctx: nat, layer: nat)
      modifies this
      ensures shapes == AttentionInto(old(shapes), prefix, dim, dimctx, layer)
    {
      shapes := shapes[Key(prefix, WCombAtt, Some(layer), None) := Mat(dim, dimctx)];
      shapes := shapes[Key(prefix, WcAtt, Some(layer), None) := Mat(dimctx, dimctx)];
      shapes := shapes[Key(prefix, BAtt, Some(layer), None) := Vec(dimctx)];
      shapes := shapes[Key(prefix, UAtt, Some(layer), None) := Mat(dimctx, 1)];
      shapes := shapes[Key(prefix, CTt, Some(layer), None) := Vec(1)];
    }

    /**
     * `param_init_gru_cond`: `nin`, `dim` and `dimctx` default to `O['dim']`, `nin_nonlin` to
     * `nin` and `dim_nonlin` to `dim`.
     */
    method InitGruCond(cfg: Config, prefix: string, nin: Option<nat>, dim: Option<nat>, dimctx: Option<nat>,
                       ninNl: Option<nat>, dimNl: Option<nat>, layerId: Option<nat>)
      modifies this
      ensures var nin', dim' := Default(nin, cfg.dim), Default(dim, cfg.dim);
        shapes == GruCondInto(old(shapes), prefix, nin', dim', Default(dimctx, cfg.dim), Default(ninNl, nin'),
                              Default(dimNl, dim'), Default(layerId, 0))
    {
      var nin, dim, dimctx := Default(nin, cfg.dim), Default(dim, cfg.dim), Default(dimctx, cfg.dim);
      var ninNl, dimNl, layer := Default(ninNl, nin), Default(dimNl, dim), Default(layerId, 0);
      AddCondUnit(prefix, nin, dim, dimctx, ninNl, dimNl, layer, None);
      AddAttention(prefix, dim, dimctx, layer);
    }

    /** `param_init_multi_gru_cond`: the loop over `1..cond_unit_size` (default 2), then the attention names. */
    method InitMultiGruCond(cfg: Config, prefix: string, nin: Option<nat>, dim: Option<nat>, dimctx: Option<nat>,
                            ninNl: Option<nat>, dimNl: Option<nat>, layerId: Option<nat>, condUnitSize: Option<nat>)
      modifies this
      ensures var nin', dim' := Default(nin, cfg.dim), Default(dim, cfg.dim);
        shapes == MultiGruCondInto(old(shapes), prefix, nin', dim', Default(dimctx, cfg.dim), Default(ninNl, nin'),
                                   Default(dimNl, dim'), Default(layerId, 0), Default(condUnitSize, 2))
    {
      var nin, dim, dimctx := Default(nin, cfg.dim), Default(dim, cfg.dim), Default(dimctx, cfg.dim);
      var ninNl, dimNl, layer := Default(ninNl, nin), Default(dimNl, dim), Default(layerId, 0);
      AddCondUnits(prefix, nin, dim, dimctx, ninNl, dimNl, layer, Default(condUnitSize, 2));
      AddAttention(prefix, dim, dimctx, layer);
    }

    /** The loop of `param_init_multi_gru_cond` over the unit indices `1..n`. */
    method AddCondUnits(prefix: string, nin: nat, dim: nat, dimctx: nat, ninNl: nat, dimNl: nat, layer: nat, n: nat)
      modifies this
      ensures shapes == MultiCondUnitsInto(old(shapes), prefix, nin, dim, dimctx, ninNl, dimNl, layer, n)
    {
      for i := 1 to n + 1
        invariant shapes == MultiCondUnitsInto(old(shapes), prefix, nin, dim, dimctx, ninNl, dimNl, layer, i - 1)
      {
        AddCondUnit(prefix, nin, dim, dimctx, ninNl, dimNl, layer, Some(i));
      }
    }

    /** `param_init_lstm`: `nin` and `dim` default to `O['dim_proj']`. */
    method InitLstm(cfg: Config, prefix: string, nin: Option<nat>, dim: Option<nat>, layerId: Option<nat>,
                    contextDim: Option<nat>)
      modifies this
      ensures shapes == LstmInto(old(shapes), prefix, Default(nin, cfg.dimProj), Default(dim, cfg.dimProj),
                                 Default(layerId, 0), contextDim)
    {
      var nin, dim, layer := Default(nin, cfg.dimProj), Default(dim, cfg.dimProj), Default(layerId, 0);
      shapes := shapes[Key(prefix, W, Some(layer), None) := Mat(nin, 4 * dim)];
      shapes := shapes[Key(prefix, U, Some(layer), None) := Mat(dim, 4 * dim)];
      shapes := shapes[Key(prefix, B, Some(layer), None) := Vec(4 * dim)];
      if contextDim.Some? {
        shapes := shapes[Key(prefix, Wc, Some(layer), None) := Mat(contextDim.value, 4 * dim)];
      }
    }

    /** `param_init_lstm_cond`: on the failed concatenation nothing is stored. */
    method InitLstmCond(cfg: Config, prefix: string, nin: Option<nat>, dim: Option<nat>, dimctx: Option<nat>,
                        ninNl: Option<nat>, dimNl: Option<nat>, layerId: Option<nat>)
      returns (r: Result<(), InitError>)
      modifies this
      ensures var nin', dim' := Default(nin, cfg.dim), Default(dim, cfg.dim);
        var s := LstmCondInto(old(shapes), prefix, nin', dim', Default(dimctx, cfg.dim), Default(ninNl, nin'),
                              Default(dimNl, dim'), Default(layerId, 0));
        && (r.Ok? <==> s.Ok?)
        && (s.Ok? ==> shapes == s.value)
        && (s.Err? ==> shapes == old(shapes) && r.error == s.error)
    {
      var nin, dim, dimctx := Default(nin, cfg.dim), Default(dim, cfg.dim), Default(dimctx, cfg.dim);
      var ninNl, dimNl, layer := Default(ninNl, nin), Default(dimNl, dim), Default(layerId, 0);
      if ninNl != nin {
        return Err(RowMismatch([nin, nin, nin, ninNl]));
      }
      shapes := shapes[Key(prefix, W, Some(layer), None) := Mat(nin, 4 * dim)];
      shapes := shapes[Key(prefix, B, Some(layer), None) := Vec(4 * dim)];
      shapes := shapes[Key(prefix, U, Some(layer), None) := Mat(dimNl, 4 * dimNl)];
      shapes := shapes[Key(prefix, Unl, Some(layer), None) := Mat(dimNl, 4 * dimNl)];
      shapes := shapes[Key(prefix, Bnl, Some(layer), None) := Vec(4 * dimNl)];
      shapes := shapes[Key(prefix, Wc, Some(layer), None) := Mat(dimctx, 4 * dim)];
      AddAttention(prefix, dim, dimctx, layer);
      r := Ok(());
    }
  }
}
