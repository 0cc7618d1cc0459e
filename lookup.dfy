/** What the layer drivers share: their errors, the lookups into `P` and the input projection. */
module Lookup {
  import opened Linalg
  import opened Wrappers
  import opened Params

  /** Why a layer driver raises instead of returning. */
  datatype LayerError =
    /** `KeyError` from `P[_p(...)]`. */
    | MissingKey(key: Key)
    /** The array under the key is a matrix where a vector is used, or the other way round. */
    | WrongRank(key: Key)
    /** A shape mismatch Theano reports when the graph is built or run. */
    | ShapeMismatch
    /** `assert context`, `assert context.ndim == 3` and, with `one_step`, `assert init_state`. */
    | MissingContext
    | ContextNotRank3
    | MissingInitState
    /** `TypeError`: the two-unit step functions called with the arguments of `units` units. */
    | ArityMismatch(units: nat)
    /** `NameError` from `eval` of a step name no function carries. */
    | UndefinedName(name: string)
    /** `TypeError`: the step `eval` found takes other arguments than the scan passes. */
    | StepMismatch(name: string)

  /** `_p(prefix, name, layer_id)` and `_p(prefix, name, layer_id, unit)`. */
  function LayerKey(prefix: string, role: Role, layer: nat): Key {
    Key(prefix, role, Some(layer), None)
  }

  function UnitKey(prefix: string, role: Role, layer: nat, unit: nat): Key {
    Key(prefix, role, Some(layer), Some(unit))
  }

  /** `P[k]` where a matrix is used. */
  function GetMat(params: ParamSet, k: Key): (r: Result<Matrix, LayerError>)
    ensures k !in params ==> r == Err(MissingKey(k))
    ensures k in params && params[k].V? ==> r == Err(WrongRank(k))
    ensures r.Ok? <==> k in params && params[k].M?
    ensures r.Ok? ==> params[k] == M(r.value)
  {
    if k !in params then Err(MissingKey(k))
    else match params[k]
      case M(m) => Ok(m)
      case V(_) => Err(WrongRank(k))
  }

  /** `P[k]` where a vector is used. */
  function GetVec(params: ParamSet, k: Key): (r: Result<Vector, LayerError>)
    ensures k !in params ==> r == Err(MissingKey(k))
    ensures k in params && params[k].M? ==> r == Err(WrongRank(k))
    ensures r.Ok? <==> k in params && params[k].V?
    ensures r.Ok? ==> params[k] == V(r.value)
  {
    if k !in params then Err(MissingKey(k))
    else match params[k]
      case V(v) => Ok(v)
      case M(_) => Err(WrongRank(k))
  }

  /** A key the schema gives a matrix shape is found in a conforming `P` with that shape. */
  lemma GetMatConforms(params: ParamSet, s: Schema, k: Key, rows: nat, cols: nat)
    requires Conforms(params, s) && k in s && s[k] == Mat(rows, cols)
    ensures GetMat(params, k).Ok? && IsMatrix(GetMat(params, k).value, rows, cols)
  {
  }

  lemma GetVecConforms(params: ParamSet, s: Schema, k: Key, len: nat)
    requires Conforms(params, s) && k in s && s[k] == Vec(len)
    ensures GetVec(params, k).Ok? && |GetVec(params, k).value| == len
  {
  }

  /** `T.dot(state_below, W) + b` over the time axis, one row per step. */
  function Project(xs: seq<Vector>, w: Matrix, b: Vector): (r: seq<Vector>)
    requires RowsOf(xs, |w|) && IsMatrix(w, |w|, |b|)
    ensures |r| == |xs| && RowsOf(r, |b|)
    ensures forall t :: 0 <= t < |xs| ==> r[t] == Add(VecMat(xs[t], w, |b|), b)
  {
    seq(|xs|, t requires 0 <= t < |xs| => Add(VecMat(xs[t], w, |b|), b))
  }

  /** The default mask `T.alloc(1., n_steps, 1)`, one value per step. */
  function MaskOrOnes(mask: Option<seq<real>>, nSteps: nat): (r: seq<real>)
    ensures mask.Some? ==> r == mask.value
    ensures mask.None? ==> |r| == nSteps && forall t :: 0 <= t < nSteps ==> r[t] == 1.0
  {
    if mask.Some? then mask.value else Ones(nSteps)
  }

  /** The default state `T.alloc(0., n_samples, dim)`, for one row. */
  function StateOrZeros(init: Option<Vector>, dim: nat): (r: Vector)
    ensures init.Some? ==> r == init.value
    ensures init.None? ==> |r| == dim && forall j :: 0 <= j < dim ==> r[j] == 0.0
  {
    if init.Some? then init.value else Zeros(dim)
  }
}
