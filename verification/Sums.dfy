/** Sums of ranks: the termination arguments add up one rank per thread, message or byte. */
module Sums {
  function Total(s: seq<nat>): nat {
    if s == [] then 0 else s[0] + Total(s[1..])
  }

  ghost predicate NoneAbove(a: seq<nat>, b: seq<nat>) {
    |a| == |b| && forall i :: 0 <= i < |a| ==> a[i] <= b[i]
  }

  lemma {:induction false} TotalLeq(a: seq<nat>, b: seq<nat>)
    requires NoneAbove(a, b)
    ensures Total(a) <= Total(b)
    decreases |a|
  {
    if a != [] {
      TotalLeq(a[1..], b[1..]);
    }
  }

  lemma {:induction false} TotalLess(a: seq<nat>, b: seq<nat>, k: nat)
    requires NoneAbove(a, b) && k < |a| && a[k] < b[k]
    ensures Total(a) < Total(b)
    decreases |a|
  {
    if k == 0 {
      TotalLeq(a[1..], b[1..]);
    } else {
      TotalLess(a[1..], b[1..], k - 1);
    }
  }

  lemma {:induction false} TotalUpdate(a: seq<nat>, k: nat, v: nat)
    requires k < |a|
    ensures Total(a[k := v]) == Total(a) - a[k] + v
    decreases |a|
  {
    if k == 0 {
      assert a[k := v][1..] == a[1..];
    } else {
      TotalUpdate(a[1..], k - 1, v);
      assert a[k := v][1..] == a[1..][k - 1 := v];
    }
  }
}
