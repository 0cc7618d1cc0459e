/** `_slice`: cutting a `k·dim`-wide gate projection into `dim`-wide blocks. */
module Slicing {
  import opened Linalg

  function Min(a: nat, b: nat): nat {
    if a <= b then a else b
  }

  /**
   * `_slice(x, n, dim)` on one row: the entries from `n·dim` up to `(n+1)·dim`,
   * clamped to the row the way a Python slice is clamped.
   */
  function Slice(x: Vector, n: nat, dim: nat): (r: Vector)
    ensures |r| <= dim
    ensures (n + 1) * dim <= |x| ==> |r| == dim && forall j :: 0 <= j < dim ==> r[j] == x[n * dim + j]
  {
    assert n * dim <= (n + 1) * dim;
    x[Min(n * dim, |x|)..Min((n + 1) * dim, |x|)]
  }

  /** A gate projection of the batch-major form `_x[:, ...]` (ndim 2) or the time-major form `_x[:, :, ...]` (ndim 3). */
  datatype Tensor = Rows(rows: Matrix) | Cube(cube: seq<Matrix>)

  /** `_slice` dispatching on the rank: the last axis is the one cut. */
  function SliceTensor(x: Tensor, n: nat, dim: nat): (r: Tensor)
    ensures r.Rows? <==> x.Rows?
    ensures x.Rows? ==> |r.rows| == |x.rows|
    ensures x.Cube? ==> |r.cube| == |x.cube| && forall t :: 0 <= t < |x.cube| ==> |r.cube[t]| == |x.cube[t]|
  {
    match x
    case Cube(c) =>
      Cube(seq(|c|, t requires 0 <= t < |c| => seq(|c[t]|, b requires 0 <= b < |c[t]| => Slice(c[t][b], n, dim))))
    case Rows(m) =>
      Rows(seq(|m|, b requires 0 <= b < |m| => Slice(m[b], n, dim)))
  }

  /** On every rank, each row of the result holds exactly columns `n·dim … (n+1)·dim − 1` of that row. */
  lemma SliceTensorExact(x: Tensor, n: nat, dim: nat)
    requires x.Rows? ==> RowsOf(x.rows, (n + 1) * dim)
    requires x.Cube? ==> forall t :: 0 <= t < |x.cube| ==> RowsOf(x.cube[t], (n + 1) * dim)
    ensures x.Rows? ==> forall b, j :: 0 <= b < |x.rows| && 0 <= j < dim ==>
      |SliceTensor(x, n, dim).rows[b]| == dim && SliceTensor(x, n, dim).rows[b][j] == x.rows[b][n * dim + j]
    ensures x.Cube? ==> forall t, b, j :: 0 <= t < |x.cube| && 0 <= b < |x.cube[t]| && 0 <= j < dim ==>
      |SliceTensor(x, n, dim).cube[t][b]| == dim && SliceTensor(x, n, dim).cube[t][b][j] == x.cube[t][b][n * dim + j]
  {
    var r := SliceTensor(x, n, dim);
    if x.Rows? {
      forall b | 0 <= b < |x.rows| ensures r.rows[b] == Slice(x.rows[b], n, dim) {
      }
    } else {
      forall t, b | 0 <= t < |x.cube| && 0 <= b < |x.cube[t]| ensures r.cube[t][b] == Slice(x.cube[t][b], n, dim) {
      }
    }
  }

  /** Blocks `0 … k−1` of width `dim`, concatenated in order. */
  function Joined(x: Vector, k: nat, dim: nat): Vector
  {
    if k == 0 then [] else Joined(x, k - 1, dim) + Slice(x, k - 1, dim)
  }

  lemma {:induction false} JoinedPrefix(x: Vector, k: nat, dim: nat)
    requires k * dim <= |x|
    ensures Joined(x, k, dim) == x[..k * dim]
  {
    if k > 0 {
      assert (k - 1) * dim + dim == k * dim;
      JoinedPrefix(x, k - 1, dim);
      var s := Slice(x, k - 1, dim);
      assert s == x[(k - 1) * dim..k * dim];
      assert x[..(k - 1) * dim] + x[(k - 1) * dim..k * dim] == x[..k * dim];
    }
  }

  /** The `k` blocks of a `k·dim`-wide projection, in order, give back the whole projection. */
  lemma SlicesPartition(x: Vector, k: nat, dim: nat)
    requires |x| == k * dim
    ensures Joined(x, k, dim) == x
  {
    JoinedPrefix(x, k, dim);
  }

  /** An elementwise function commutes with slicing. */
  lemma SliceMapCommutes(f: real -> real, x: Vector, n: nat, dim: nat)
    ensures Slice(Map(f, x), n, dim) == Map(f, Slice(x, n, dim))
  {
  }

  /** The fixed block order of a plain-gate (GRU) projection. */
  datatype GruBlocks = GruBlocks(reset: Vector, update: Vector)

  function GruSplit(preact: Vector, dim: nat): (r: GruBlocks)
    ensures |preact| == 2 * dim ==> |r.reset| == dim && |r.update| == dim && r.reset + r.update == preact
  {
    var r := GruBlocks(Slice(preact, 0, dim), Slice(preact, 1, dim));
    if |preact| == 2 * dim then
      SlicesPartition(preact, 2, dim);
      assert Joined(preact, 2, dim) == [] + r.reset + r.update;
      r
    else r
  }

  /** The fixed block order of a memory-gate (LSTM) projection. */
  datatype LstmBlocks = LstmBlocks(input: Vector, forget: Vector, output: Vector, candidate: Vector)

  function LstmSplit(preact: Vector, dim: nat): (r: LstmBlocks)
    ensures |preact| == 4 * dim ==>
      && |r.input| == dim && |r.forget| == dim && |r.output| == dim && |r.candidate| == dim
      && r.input + r.forget + r.output + r.candidate == preact
  {
    var r := LstmBlocks(Slice(preact, 0, dim), Slice(preact, 1, dim), Slice(preact, 2, dim), Slice(preact, 3, dim));
    if |preact| == 4 * dim then
      FourBlocks(preact, dim);
      r
    else r
  }

  /** The four `dim`-wide blocks of a `4·dim`-wide projection, concatenated, are the projection. */
  lemma FourBlocks(x: Vector, dim: nat)
    requires |x| == 4 * dim
    ensures Slice(x, 0, dim) + Slice(x, 1, dim) + Slice(x, 2, dim) + Slice(x, 3, dim) == x
  {
    SlicesPartition(x, 4, dim);
    assert Joined(x, 1, dim) == Slice(x, 0, dim);
    assert Joined(x, 2, dim) == Joined(x, 1, dim) + Slice(x, 1, dim);
    assert Joined(x, 3, dim) == Joined(x, 2, dim) + Slice(x, 2, dim);
    assert Joined(x, 4, dim) == Joined(x, 3, dim) + Slice(x, 3, dim);
  }
}
