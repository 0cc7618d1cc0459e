/** Option and Result, for the error paths of the layer drivers and the registry. */
module Wrappers {
  datatype Option<+T> = None | Some(value: T)

  datatype Result<+R, +E> = Ok(value: R) | Err(error: E) {
    predicate IsFailure() {
      Err?
    }

    function PropagateFailure<U>(): Result<U, E>
      requires Err?
    {
      Err(error)
    }

    function Extract(): R
      requires Ok?
    {
      value
    }
  }
}

/** Dense real vectors and matrices, row-major, one batch row per state vector. */
module Linalg {
  type Vector = seq<real>
  type Matrix = seq<seq<real>>

  /** `m` has `rows` rows of `cols` entries each. */
  predicate IsMatrix(m: Matrix, rows: nat, cols: nat) {
    |m| == rows && forall i :: 0 <= i < |m| ==> |m[i]| == cols
  }

  /** Every row of `xs` has `n` entries. */
  predicate RowsOf(xs: seq<Vector>, n: nat) {
    forall t :: 0 <= t < |xs| ==> |xs[t]| == n
  }

  /** numpy's `shape[1]`, read from the first row (a matrix without rows reads as 0 columns). */
  function Cols(m: Matrix): nat {
    if |m| == 0 then 0 else |m[0]|
  }

  lemma ColsOf(m: Matrix, rows: nat, cols: nat)
    requires IsMatrix(m, rows, cols) && (rows > 0 || cols == 0)
    ensures Cols(m) == cols
  {
  }

  function Zeros(n: nat): (r: Vector)
    ensures |r| == n
  {
    seq(n, _ => 0.0)
  }

  function Ones(n: nat): (r: Vector)
    ensures |r| == n
  {
    seq(n, _ => 1.0)
  }

  function Add(a: Vector, b: Vector): (r: Vector)
    requires |a| == |b|
    ensures |r| == |a|
  {
    seq(|a|, i requires 0 <= i < |a| => a[i] + b[i])
  }

  /** Elementwise product, numpy's `a * b` on equal shapes. */
  function Hadamard(a: Vector, b: Vector): (r: Vector)
    requires |a| == |b|
    ensures |r| == |a|
  {
    seq(|a|, i requires 0 <= i < |a| => a[i] * b[i])
  }

  /** `1. - a`. */
  function OneMinus(a: Vector): (r: Vector)
    ensures |r| == |a|
  {
    seq(|a|, i requires 0 <= i < |a| => 1.0 - a[i])
  }

  function Scale(k: real, a: Vector): (r: Vector)
    ensures |r| == |a|
  {
    seq(|a|, i requires 0 <= i < |a| => k * a[i])
  }

  /** Elementwise application of a scalar function. */
  function Map(f: real -> real, a: Vector): (r: Vector)
    ensures |r| == |a|
  {
    seq(|a|, i requires 0 <= i < |a| => f(a[i]))
  }

  function Sum(a: Vector): real
  {
    if |a| == 0 then 0.0 else a[0] + Sum(a[1..])
  }

  /** `T.dot(v, m)` for a row vector: the sum of the rows of `m` weighted by the entries of `v`. */
  function VecMat(v: Vector, m: Matrix, cols: nat): (r: Vector)
    requires IsMatrix(m, |v|, cols)
    ensures |r| == cols
  {
    if |v| == 0 then Zeros(cols)
    else Add(Scale(v[0], m[0]), VecMat(v[1..], m[1..], cols))
  }

  lemma AddAssoc(a: Vector, b: Vector, c: Vector)
    requires |a| == |b| == |c|
    ensures Add(Add(a, b), c) == Add(a, Add(b, c))
  {
  }

  lemma AddZeros(a: Vector)
    ensures Add(a, Zeros(|a|)) == a
  {
  }

  /** A sum of non-negative entries is positive as soon as one entry is. */
  lemma {:induction false} SumPositive(a: Vector, k: nat)
    requires k < |a| && a[k] > 0.0
    requires forall i :: 0 <= i < |a| ==> a[i] >= 0.0
    ensures Sum(a) > 0.0
  {
    if k == 0 {
      SumNonNegative(a[1..]);
    } else {
      SumPositive(a[1..], k - 1);
    }
  }

  lemma {:induction false} SumNonNegative(a: Vector)
    requires forall i :: 0 <= i < |a| ==> a[i] >= 0.0
    ensures Sum(a) >= 0.0
  {
    if |a| > 0 {
      SumNonNegative(a[1..]);
    }
  }

  /** Dividing every entry by `d` divides the sum by `d`. */
  lemma {:induction false} SumDivide(a: Vector, d: real)
    requires d != 0.0
    ensures Sum(seq(|a|, i requires 0 <= i < |a| => a[i] / d)) == Sum(a) / d
  {
    var q := seq(|a|, i requires 0 <= i < |a| => a[i] / d);
    if |a| > 0 {
      var tail := seq(|a| - 1, i requires 0 <= i < |a| - 1 => a[1..][i] / d);
      assert q[1..] == tail;
      SumDivide(a[1..], d);
    }
  }

  /** The rows of `m` whose weight in `v` is zero do not contribute to `v · m`. */
  lemma {:induction false} VecMatIgnoresZeroWeights(v: Vector, m: Matrix, m': Matrix, cols: nat)
    requires IsMatrix(m, |v|, cols) && IsMatrix(m', |v|, cols)
    requires forall s :: 0 <= s < |v| && v[s] != 0.0 ==> m[s] == m'[s]
    ensures VecMat(v, m, cols) == VecMat(v, m', cols)
  {
    if |v| > 0 {
      VecMatIgnoresZeroWeights(v[1..], m[1..], m'[1..], cols);
      if v[0] == 0.0 {
        assert Scale(v[0], m[0]) == Scale(v[0], m'[0]);
      }
    }
  }

  /** A weighted sum of copies of one row, with weights summing to 1, is that row. */
  lemma {:induction false} VecMatOfCopies(v: Vector, m: Matrix, row: Vector)
    requires IsMatrix(m, |v|, |row|)
    requires forall s :: 0 <= s < |v| ==> m[s] == row
    ensures VecMat(v, m, |row|) == Scale(Sum(v), row)
  {
    if |v| > 0 {
      VecMatOfCopies(v[1..], m[1..], row);
      var a, b := v[0], Sum(v[1..]);
      var lhs, rhs := Add(Scale(a, row), Scale(b, row)), Scale(a + b, row);
      forall j | 0 <= j < |row| ensures lhs[j] == rhs[j] {
        calc {
          lhs[j];
          a * row[j] + b * row[j];
          (a + b) * row[j];
        }
      }
      assert lhs == rhs;
    }
  }
}
