/** Sums of integer sequences, for counts kept over threads, slots and bucket handles. */
module Sums {

  function Sum(f: seq<int>): int {
    if f == [] then 0 else Sum(f[..|f| - 1]) + f[|f| - 1]
  }

  lemma {:induction false} SumChange(f: seq<int>, g: seq<int>, t: nat)
    requires t < |f| == |g| && forall u :: 0 <= u < |f| && u != t ==> f[u] == g[u]
    ensures Sum(g) == Sum(f) - f[t] + g[t]
  {
    var n := |f| - 1;
    if t < n {
      SumChange(f[..n], g[..n], t);
    } else {
      assert f[..n] == g[..n];
    }
  }

  lemma {:induction false} SumZero(f: seq<int>)
    requires forall t :: 0 <= t < |f| ==> f[t] == 0
    ensures Sum(f) == 0
  {
    if f != [] {
      SumZero(f[..|f| - 1]);
    }
  }

  /** `g` arranges values of `f` at the positions that `to` names. */
  lemma {:induction false} SumSpread(g: seq<int>, f: seq<int>, to: seq<nat>)
    requires |g| == |to| && (forall i :: 0 <= i < |g| ==> to[i] < |f| && g[i] <= f[to[i]])
    requires (forall i, j :: 0 <= i < j < |to| ==> to[i] != to[j]) && (forall t :: 0 <= t < |f| ==> 0 <= f[t])
    ensures Sum(g) <= Sum(f)
    ensures (forall i :: 0 <= i < |g| ==> g[i] == f[to[i]]) ==>
            (forall t :: 0 <= t < |f| && t !in to ==> f[t] == 0) ==> Sum(g) == Sum(f)
  {
    if g == [] {
      SumAtLeast(f);
    } else {
      var n := |g| - 1;
      var f' := f[to[n] := 0];
      SumChange(f, f', to[n]);
      SumSpread(g[..n], f', to[..n]);
    }
  }

  lemma {:induction false} SumAtLeast(f: seq<int>)
    requires forall t :: 0 <= t < |f| ==> 0 <= f[t]
    ensures 0 <= Sum(f) && ((forall t :: 0 <= t < |f| ==> f[t] == 0) ==> Sum(f) == 0)
  {
    if f != [] {
      SumAtLeast(f[..|f| - 1]);
    }
  }

  lemma {:induction false} SumZeroTail(f: seq<int>, n: nat)
    requires n <= |f| && forall t :: n <= t < |f| ==> f[t] == 0
    ensures Sum(f) == Sum(f[..n])
  {
    if n < |f| {
      SumZeroTail(f[..|f| - 1], n);
      assert f[..|f| - 1][..n] == f[..n];
    } else {
      assert f[..n] == f;
    }
  }
}
