/**
 * The table `layers` that maps a layer name to its parameter initialiser and its builder, and
 * the three accessors `get_layer`, `get_init` and `get_build`.
 */
module Registry {
  import opened Wrappers

  /** The seven layer kinds the table knows. */
  datatype LayerKind = FF | Gru | GruCond | MultiGru | MultiGruCond | Lstm | LstmCond

  /**
   * The initialisers, by name. Each is modelled in `Params` as the schema it writes:
   * `FeedForwardInto`, `GruUnitInto`, `GruCondInto`, `MultiGruInto`, `MultiGruCondInto`,
   * `LstmInto` and `LstmCondInto`.
   */
  datatype Init =
    | ParamInitFeedForward | ParamInitGru | ParamInitGruCond | ParamInitMultiGru | ParamInitMultiGruCond
    | ParamInitLstm | ParamInitLstmCond

  /**
   * The builders, by name. Each is modelled as a function of the same name: `Activations.FeedForward`,
   * `GruLayers.GruLayer`, `GruCondLayers.GruCondLayer`, `MultiGruLayers.MultiGruLayer`,
   * `MultiGruCondLayers.MultiGruCondLayer`, `LstmLayers.LstmLayer` and `LstmCondLayers.LstmCondLayer`.
   */
  datatype Build =
    | FeedForward | GruLayer | GruCondLayer | MultiGruLayer | MultiGruCondLayer | LstmLayer | LstmCondLayer

  /** `KeyError` from `layers[name]`. */
  datatype RegistryError = KeyError(name: string)

  /** The dictionary `layers`: name to (initialiser, builder). */
  const Layers: map<string, (Init, Build)> := map[
    "ff" := (ParamInitFeedForward, FeedForward),
    "gru" := (ParamInitGru, GruLayer),
    "gru_cond" := (ParamInitGruCond, GruCondLayer),
    "multi_gru" := (ParamInitMultiGru, MultiGruLayer),
    "multi_gru_cond" := (ParamInitMultiGruCond, MultiGruCondLayer),
    "lstm" := (ParamInitLstm, LstmLayer),
    "lstm_cond" := (ParamInitLstmCond, LstmCondLayer)
  ]

  /** `get_layer(name)`: both entries of the pair under `name`. */
  function GetLayer(name: string): (r: Result<(Init, Build), RegistryError>)
    ensures r.Err? <==> name !in Layers
    ensures r.Err? ==> r.error == KeyError(name)
    ensures r.Ok? ==> r.value == Layers[name]
  {
    if name in Layers then Ok(Layers[name]) else Err(KeyError(name))
  }

  /** `get_init(name)`: the first entry under `name`. */
  function GetInit(name: string): (r: Result<Init, RegistryError>)
    ensures r.Err? <==> name !in Layers
    ensures r.Err? ==> r.error == KeyError(name)
    ensures r.Ok? ==> r.value == Layers[name].0
  {
    if name in Layers then Ok(Layers[name].0) else Err(KeyError(name))
  }

  /** `get_build(name)`: the second entry under `name`. */
  function GetBuild(name: string): (r: Result<Build, RegistryError>)
    ensures r.Err? <==> name !in Layers
    ensures r.Err? ==> r.error == KeyError(name)
    ensures r.Ok? ==> r.value == Layers[name].1
  {
    if name in Layers then Ok(Layers[name].1) else Err(KeyError(name))
  }

  /** The name each kind is registered under. */
  function NameOf(k: LayerKind): string {
    match k
    case FF => "ff"
    case Gru => "gru"
    case GruCond => "gru_cond"
    case MultiGru => "multi_gru"
    case MultiGruCond => "multi_gru_cond"
    case Lstm => "lstm"
    case LstmCond => "lstm_cond"
  }

  /** The initialiser and the builder written for each kind. */
  function InitOf(k: LayerKind): Init {
    match k
    case FF => ParamInitFeedForward
    case Gru => ParamInitGru
    case GruCond => ParamInitGruCond
    case MultiGru => ParamInitMultiGru
    case MultiGruCond => ParamInitMultiGruCond
    case Lstm => ParamInitLstm
    case LstmCond => ParamInitLstmCond
  }

  function BuildOf(k: LayerKind): Build {
    match k
    case FF => FeedForward
    case Gru => GruLayer
    case GruCond => GruCondLayer
    case MultiGru => MultiGruLayer
    case MultiGruCond => MultiGruCondLayer
    case Lstm => LstmLayer
    case LstmCond => LstmCondLayer
  }

  /** Every kind is found under its name, paired with its own initialiser and builder. */
  lemma GetLayerOfKind(k: LayerKind)
    ensures GetLayer(NameOf(k)) == Ok((InitOf(k), BuildOf(k)))
    ensures GetInit(NameOf(k)) == Ok(InitOf(k)) && GetBuild(NameOf(k)) == Ok(BuildOf(k))
  {
  }

  /** The table holds nothing but the seven kinds: every name it knows is the name of a kind. */
  lemma GetLayerOnlyKinds(name: string)
    ensures GetLayer(name).Ok? <==> exists k :: NameOf(k) == name
    ensures GetLayer(name).Ok? ==> exists k :: NameOf(k) == name && GetLayer(name).value == (InitOf(k), BuildOf(k))
  {
    if name in Layers {
      var k := if name == "ff" then FF else if name == "gru" then Gru else if name == "gru_cond" then GruCond
        else if name == "multi_gru" then MultiGru else if name == "multi_gru_cond" then MultiGruCond
        else if name == "lstm" then Lstm else LstmCond;
      assert NameOf(k) == name;
    }
  }

  /** The seven names are distinct, so no kind shadows another. */
  lemma NamesDistinct(k: LayerKind, k': LayerKind)
    ensures NameOf(k) == NameOf(k') ==> k == k'
  {
  }

  /** `get_layer` is the pair of `get_init` and `get_build`, and all three fail on the same names. */
  lemma GetLayerPairs(name: string)
    ensures GetLayer(name).Ok? <==> GetInit(name).Ok? && GetBuild(name).Ok?
    ensures GetLayer(name).Ok? ==> GetLayer(name).value == (GetInit(name).value, GetBuild(name).value)
    ensures GetLayer(name).Err? ==> GetInit(name) == Err(KeyError(name)) && GetBuild(name) == Err(KeyError(name))
  {
  }
}
