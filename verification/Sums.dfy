/** Sums of sequences of naturals. */
module Sums {
  function Sum(w: seq<nat>): nat {
    if w == [] then 0 else Sum(w[..|w| - 1]) + w[|w| - 1]
  }

  lemma {:induction false} SumUpdate(w: seq<nat>, i: nat, x: nat)
    requires i < |w|
    ensures Sum(w[i := x]) + w[i] == Sum(w) + x
  {
    var n := |w| - 1;
    if i == n {
      assert w[i := x][..n] == w[..n];
    } else {
      assert w[i := x][..n] == w[..n][i := x];
      SumUpdate(w[..n], i, x);
    }
  }

  lemma {:induction false} SumLe(a: seq<nat>, b: seq<nat>)
    requires |a| == |b| && forall i :: 0 <= i < |a| ==> a[i] <= b[i]
    ensures Sum(a) <= Sum(b)
  {
    if a != [] { SumLe(a[..|a| - 1], b[..|b| - 1]); }
  }

  lemma {:induction false} SumLess(a: seq<nat>, b: seq<nat>, k: nat)
    requires |a| == |b| && k < |a| && a[k] < b[k] && forall i :: 0 <= i < |a| ==> a[i] <= b[i]
    ensures Sum(a) < Sum(b)
  {
    SumUpdate(b, k, a[k]);
    SumLe(a, b[k := a[k]]);
  }

  lemma {:induction false} SumSwapRemove(w: seq<nat>, i: nat)
    requires i < |w|
    ensures Sum(w[i := w[|w| - 1]][..|w| - 1]) + w[i] == Sum(w)
  {
    var n := |w| - 1;
    SumUpdate(w, i, w[n]);
  }
}
