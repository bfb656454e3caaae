/** Sums of sequences of naturals: counters over workers and ranks. */
module Totals {
  import opened IntArith

  ghost function Total(n: seq<nat>): nat {
    if n == [] then 0 else Total(n[..|n| - 1]) + n[|n| - 1]
  }

  lemma {:induction false} TotalUpdate(n: seq<nat>, r: nat, v: nat)
    requires r < |n|
    ensures Total(n[r := v]) == Total(n) - n[r] + v
  {
    var last := |n| - 1;
    if r == last {
      assert n[r := v][..last] == n[..last];
    } else {
      TotalUpdate(n[..last], r, v);
      assert n[r := v][..last] == n[..last][r := v];
    }
  }

  lemma {:induction false} TotalOfEqual(n: seq<nat>, v: nat)
    requires forall r :: 0 <= r < |n| ==> n[r] == v
    ensures Total(n) == |n| * v
  {
    if n != [] {
      TotalOfEqual(n[..|n| - 1], v);
      MulSucc(|n| - 1, v);
    }
  }

  lemma {:induction false} TotalMono(a: seq<nat>, b: seq<nat>, slack: nat)
    requires |a| == |b| && forall r :: 0 <= r < |a| ==> a[r] <= b[r] + slack
    ensures Total(a) <= Total(b) + |a| * slack
  {
    if a != [] {
      TotalMono(a[..|a| - 1], b[..|b| - 1], slack);
      MulSucc(|a| - 1, slack);
    }
  }

  lemma {:induction false} TotalSum(a: seq<nat>, b: seq<nat>, c: seq<nat>)
    requires |a| == |b| == |c| && forall r :: 0 <= r < |a| ==> c[r] == a[r] + b[r]
    ensures Total(c) == Total(a) + Total(b)
  {
    if a != [] {
      TotalSum(a[..|a| - 1], b[..|a| - 1], c[..|a| - 1]);
    }
  }

  lemma {:induction false} TotalTail(n: seq<nat>)
    requires n != []
    ensures Total(n) == n[0] + Total(n[1..])
  {
    if |n| > 1 {
      TotalTail(n[..|n| - 1]);
      assert n[..|n| - 1][1..] == n[1..][..|n| - 2];
    }
  }
}
