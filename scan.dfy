/**
 * `theano.scan` with one carried state (a tuple of outputs is one state of a datatype): the
 * scan is the left fold over time that collects every intermediate state.
 */
module Scan {
  /** The state a step at position `t` receives: the initial state at 0, the previous output after. */
  function Before<S>(outs: seq<S>, s0: S, t: nat): S
    requires t <= |outs|
  {
    if t == 0 then s0 else outs[t - 1]
  }

  /** The first `n` outputs of a scan of `step` from `s0`; `step` receives the time index and the previous state. */
  function Outputs<S>(step: (nat, S) -> S, s0: S, n: nat): (r: seq<S>)
    ensures |r| == n
    decreases n
  {
    if n == 0 then []
    else
      var prev := Outputs(step, s0, n - 1);
      prev + [step(n - 1, Before(prev, s0, n - 1))]
  }

  /** A scan of `n` steps starts with the scan of its first `k` steps. */
  lemma {:induction false} OutputsPrefix<S>(step: (nat, S) -> S, s0: S, n: nat, k: nat)
    requires k <= n
    ensures Outputs(step, s0, n)[..k] == Outputs(step, s0, k)
    decreases n
  {
    if k < n {
      OutputsPrefix(step, s0, n - 1, k);
      assert Outputs(step, s0, n)[..n - 1] == Outputs(step, s0, n - 1);
    }
  }

  /** The output at step `t` is the step applied at `t` to the output at `t − 1` (the initial state at 0). */
  lemma OutputsStepwise<S>(step: (nat, S) -> S, s0: S, n: nat)
    ensures forall t :: 0 <= t < n ==> Outputs(step, s0, n)[t] == step(t, Before(Outputs(step, s0, n), s0, t))
  {
    var outs := Outputs(step, s0, n);
    forall t | 0 <= t < n
      ensures outs[t] == step(t, Before(outs, s0, t))
    {
      OutputsPrefix(step, s0, n, t + 1);
      assert outs[..t + 1] == Outputs(step, s0, t + 1);
      assert outs[t] == outs[..t + 1][t];
      if t > 0 {
        assert outs[t - 1] == outs[..t + 1][t - 1];
      }
    }
  }

  /** A property the initial state has and every step keeps holds of every output. */
  lemma {:induction false} OutputsKeep<S>(step: (nat, S) -> S, s0: S, n: nat, inv: S -> bool)
    requires inv(s0)
    requires forall t, s :: 0 <= t < n && inv(s) ==> inv(step(t, s))
    ensures forall t :: 0 <= t < n ==> inv(Outputs(step, s0, n)[t])
    decreases n
  {
    if n > 0 {
      OutputsKeep(step, s0, n - 1, inv);
      var prev := Outputs(step, s0, n - 1);
      assert inv(Before(prev, s0, n - 1));
    }
  }

  /** When every step leaves `s0` as it is, the scan repeats `s0`. */
  lemma {:induction false} OutputsFixed<S>(step: (nat, S) -> S, s0: S, n: nat)
    requires forall t :: 0 <= t < n ==> step(t, s0) == s0
    ensures forall t :: 0 <= t < n ==> Outputs(step, s0, n)[t] == s0
    decreases n
  {
    if n > 0 {
      OutputsFixed(step, s0, n - 1);
    }
  }

  /** Two steps that agree on the states a scan visits give the same scan. */
  lemma {:induction false} OutputsAgree<S>(step: (nat, S) -> S, step': (nat, S) -> S, s0: S, n: nat)
    requires forall t, s :: 0 <= t < n ==> step(t, s) == step'(t, s)
    ensures Outputs(step, s0, n) == Outputs(step', s0, n)
    decreases n
  {
    if n > 0 {
      OutputsAgree(step, step', s0, n - 1);
    }
  }

  /** Two scans whose steps keep a relation between their states keep it at every output. */
  lemma {:induction false} OutputsRelate<S, T>(step: (nat, S) -> S, step': (nat, T) -> T, s0: S, s0': T, n: nat,
                                               rel: (S, T) -> bool)
    requires rel(s0, s0')
    requires forall t, a, b :: 0 <= t < n && rel(a, b) ==> rel(step(t, a), step'(t, b))
    ensures forall t :: 0 <= t < n ==> rel(Outputs(step, s0, n)[t], Outputs(step', s0', n)[t])
    decreases n
  {
    if n > 0 {
      OutputsRelate(step, step', s0, s0', n - 1, rel);
      var prev, prev' := Outputs(step, s0, n - 1), Outputs(step', s0', n - 1);
      assert rel(Before(prev, s0, n - 1), Before(prev', s0', n - 1));
    }
  }

  /** The scan as the loop `theano.scan` runs: one step per time index, each fed the previous result. */
  method Run<S>(step: (nat, S) -> S, s0: S, n: nat) returns (outs: seq<S>)
    ensures outs == Outputs(step, s0, n)
  {
    outs := [];
    var s := s0;
    for t := 0 to n
      invariant outs == Outputs(step, s0, t)
      invariant s == Before(outs, s0, t)
    {
      s := step(t, s);
      outs := outs + [s];
    }
  }
}
