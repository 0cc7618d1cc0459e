/** The scalar nonlinearities, left uninterpreted: they are carried as parameters. */
module Activations {
  import opened Linalg

  /** `T.nnet.sigmoid`, `T.tanh` and `T.exp`, applied elementwise by the layers. */
  datatype Act = Act(sigmoid: real -> real, tanh: real -> real, exp: real -> real)

  /** The one fact about `exp` that a proof needs. */
  ghost predicate ExpPositive(act: Act) {
    forall x :: act.exp(x) > 0.0
  }

  lemma ExpAt(act: Act, x: real)
    requires ExpPositive(act)
    ensures act.exp(x) > 0.0
  {
  }

  /** The `activ` choices of `feed_forward`: the module-level `tanh` and `linear`. */
  datatype Activation = Tanh | Linear

  function Activate(act: Act, a: Activation, v: Vector): (r: Vector)
    ensures |r| == |v|
    ensures a == Linear ==> r == v
  {
    match a
    case Tanh => Map(act.tanh, v)
    case Linear => v
  }

  /** `feed_forward` on one row: `activ(x · W + b)`. */
  function FeedForward(act: Act, activ: Activation, x: Vector, W: Matrix, b: Vector): (r: Vector)
    requires IsMatrix(W, |x|, |b|)
    ensures |r| == |b|
  {
    Activate(act, activ, Add(VecMat(x, W, |b|), b))
  }

  lemma {:induction false} VecMatOfZeros(n: nat, W: Matrix, cols: nat)
    requires IsMatrix(W, n, cols)
    ensures VecMat(Zeros(n), W, cols) == Zeros(cols)
  {
    if n > 0 {
      assert Zeros(n)[1..] == Zeros(n - 1);
      VecMatOfZeros(n - 1, W[1..], cols);
      assert Scale(0.0, W[0]) == Zeros(cols);
      AddZeros(Zeros(cols));
    }
  }

  /** On a zero input row the feed-forward layer outputs its activated bias. */
  lemma FeedForwardZeroInput(act: Act, activ: Activation, W: Matrix, b: Vector)
    requires IsMatrix(W, |W|, |b|)
    ensures FeedForward(act, activ, Zeros(|W|), W, b) == Activate(act, activ, b)
  {
    VecMatOfZeros(|W|, W, |b|);
    assert Add(Zeros(|b|), b) == b;
  }
}

/** The padding-mask blend `m·new + (1−m)·old` used by every step function. */
module Masking {
  import opened Linalg

  /** `mask[:, None] * new + (1. - mask)[:, None] * old` for one batch row whose mask value is `m`. */
  function Blend(m: real, next: Vector, prev: Vector): (r: Vector)
    requires |next| == |prev|
    ensures |r| == |prev|
    ensures m == 0.0 ==> r == prev
    ensures m == 1.0 ==> r == next
  {
    var r := seq(|prev|, j requires 0 <= j < |prev| => m * next[j] + (1.0 - m) * prev[j]);
    assert m == 0.0 ==> forall j :: 0 <= j < |prev| ==> r[j] == prev[j];
    assert m == 1.0 ==> forall j :: 0 <= j < |prev| ==> r[j] == next[j];
    r
  }

  /** A mask value is 0 or 1. */
  predicate IsBinary(m: real) {
    m == 0.0 || m == 1.0
  }

  /** Blending with a 0/1 mask picks one of the two rows whole. */
  lemma BlendPicks(m: real, next: Vector, prev: Vector)
    requires |next| == |prev| && IsBinary(m)
    ensures Blend(m, next, prev) == next || Blend(m, next, prev) == prev
  {
  }
}

/** `dropout_layer`. */
module Dropout {
  import opened Linalg
  import opened Wrappers

  /** `dropout_rate`'s default. */
  const DefaultRate: real := 0.5

  /**
   * The trailing arguments of `dropout_layer`: the `use_noise` switch, the caller's
   * binomial draw (`trng`, given as the value drawn at (row, feature)) and the rate.
   */
  datatype DropoutParams = DropoutParams(useNoise: bool, trng: (nat, nat) -> real, rate: Option<real>)

  function Rate(p: DropoutParams): real {
    if p.rate.Some? then p.rate.value else DefaultRate
  }

  /** `dropout_layer` on one output row (`row` is its index along the leading axis). */
  function DropoutRow(x: Vector, p: DropoutParams, row: nat): (r: Vector)
    ensures |r| == |x|
    ensures !p.useNoise ==> r == Scale(1.0 - Rate(p), x)
  {
    if p.useNoise then seq(|x|, j requires 0 <= j < |x| => x[j] * p.trng(row, j))
    else seq(|x|, j requires 0 <= j < |x| => x[j] * (1.0 - Rate(p)))
  }

  /** `dropout_layer` on a time-major output sequence. */
  function DropoutSeq(xs: seq<Vector>, p: DropoutParams): (r: seq<Vector>)
    ensures |r| == |xs|
    ensures forall t :: 0 <= t < |xs| ==> |r[t]| == |xs[t]|
    ensures !p.useNoise ==> forall t :: 0 <= t < |xs| ==> r[t] == Scale(1.0 - Rate(p), xs[t])
  {
    seq(|xs|, t requires 0 <= t < |xs| => DropoutRow(xs[t], p, t))
  }

  /** `if dropout_params: outputs = dropout_layer(outputs, *dropout_params)` on a sequence. */
  function MaybeDropoutSeq(xs: seq<Vector>, p: Option<DropoutParams>): (r: seq<Vector>)
    ensures |r| == |xs|
    ensures p.None? ==> r == xs
    ensures p.Some? ==> r == DropoutSeq(xs, p.value)
  {
    if p.Some? then DropoutSeq(xs, p.value) else xs
  }

  /** The same on a single-step output. */
  function MaybeDropoutRow(x: Vector, p: Option<DropoutParams>): (r: Vector)
    ensures |r| == |x|
    ensures p.None? ==> r == x
    ensures p.Some? ==> r == DropoutRow(x, p.value, 0)
  {
    if p.Some? then DropoutRow(x, p.value, 0) else x
  }
}
