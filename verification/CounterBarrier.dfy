/** The monotone counter barrier: every worker adds 1, then spins until the
    counter reaches base + (k + 1) * P. The counter never resets. */
module CounterBarrier {
  import opened IntArith
  import opened Totals

  /** left[w]: barriers worker w has passed. waiting[w]: it has added 1 for the
      next one and is spinning. */
  datatype Barrier = Barrier(left: seq<nat>, waiting: seq<bool>, counter: nat)
  {
    ghost predicate Shaped(p: nat) { |left| == |waiting| == p }

    /** Barriers worker w has arrived at. */
    function Arrived(w: nat): nat
      requires w < |left| == |waiting|
    {
      left[w] + if waiting[w] then 1 else 0
    }
  }

  function Fresh(p: nat, base: nat): Barrier {
    Barrier(seq(p, _ => 0), seq(p, _ => false), base)
  }

  /** atomic_add(bar_ptr, 1). */
  function Arrive(b: Barrier, w: nat): Barrier
    requires w < |b.waiting|
  {
    b.(waiting := b.waiting[w := true], counter := b.counter + 1)
  }

  /** The spin guard lets worker w through. */
  predicate Released(b: Barrier, base: nat, p: nat, w: nat)
    requires w < |b.left|
  {
    b.counter >= base + (b.left[w] + 1) * p
  }

  function Leave(b: Barrier, w: nat): Barrier
    requires w < |b.left| == |b.waiting|
  {
    b.(waiting := b.waiting[w := false], left := b.left[w := b.left[w] + 1])
  }

  ghost function Arrivals(b: Barrier): (n: seq<nat>)
    requires |b.left| == |b.waiting|
    ensures |n| == |b.left| && forall w :: 0 <= w < |n| ==> n[w] == b.Arrived(w)
  {
    seq(|b.left|, w requires 0 <= w < |b.left| => b.Arrived(w))
  }

  /** No worker has left a barrier that some worker has not reached. */
  ghost predicate Inv(b: Barrier, base: nat, p: nat) {
    && p > 0 && b.Shaped(p)
    && b.counter == base + Total(Arrivals(b))
    && forall u, v :: 0 <= u < p && 0 <= v < p ==> b.left[u] <= b.Arrived(v)
  }

  lemma FreshInv(base: nat, p: nat)
    requires p > 0
    ensures Inv(Fresh(p, base), base, p)
  {
    TotalOfEqual(Arrivals(Fresh(p, base)), 0);
  }

  lemma ArriveInv(b: Barrier, base: nat, p: nat, w: nat)
    requires Inv(b, base, p) && w < p && !b.waiting[w]
    ensures Inv(Arrive(b, w), base, p)
  {
    TotalUpdate(Arrivals(b), w, b.left[w] + 1);
    assert Arrivals(Arrive(b, w)) == Arrivals(b)[w := b.left[w] + 1];
  }

  /** Arrivals of two workers never differ by more than one. */
  lemma ArrivalsClose(b: Barrier, base: nat, p: nat, u: nat, v: nat)
    requires Inv(b, base, p) && u < p && v < p
    ensures b.Arrived(u) <= b.Arrived(v) + 1
  {
    assert b.left[u] <= b.Arrived(v);
  }

  lemma {:induction false} TotalUnder(n: seq<nat>, w: nat, v: nat)
    requires w < |n| && n[w] < v && forall q :: 0 <= q < |n| ==> n[q] <= v
    ensures Total(n) < |n| * v
  {
    TotalUpdate(n, w, v);
    TotalMono(n[w := v], seq(|n|, _ => v), 0);
    TotalOfEqual(seq(|n|, _ => v), v);
  }

  /** The counter is the right test: a spinning worker is let through exactly
      when every worker has arrived. */
  lemma ReleasedIff(b: Barrier, base: nat, p: nat, w: nat)
    requires Inv(b, base, p) && w < p && b.waiting[w]
    ensures Released(b, base, p, w) <==> forall v :: 0 <= v < p ==> b.Arrived(v) >= b.left[w] + 1
  {
    var n, target := Arrivals(b), b.left[w] + 1;
    if forall v :: 0 <= v < p ==> b.Arrived(v) >= target {
      TotalMono(seq(p, _ => target), n, 0);
      TotalOfEqual(seq(p, _ => target), target);
      MulCommute(p, target);
    } else {
      var late :| 0 <= late < p && b.Arrived(late) < target;
      forall v | 0 <= v < p ensures n[v] <= target {
        // v has left no barrier that `late` has not reached.
        assert b.left[v] <= b.Arrived(late);
      }
      TotalUnder(n, late, target);
      MulCommute(p, target);
    }
  }

  /** Leaving round r is safe: all P workers have arrived at round r. */
  lemma LeaveInv(b: Barrier, base: nat, p: nat, w: nat)
    requires Inv(b, base, p) && w < p && b.waiting[w] && Released(b, base, p, w)
    ensures Inv(Leave(b, w), base, p)
    ensures forall v :: 0 <= v < p ==> b.Arrived(v) >= b.left[w] + 1
  {
    ReleasedIff(b, base, p, w);
    assert Arrivals(Leave(b, w)) == Arrivals(b);
  }

  /** After n full rounds the counter is base + P * n. */
  lemma CounterAfter(b: Barrier, base: nat, p: nat, n: nat)
    requires Inv(b, base, p) && forall w :: 0 <= w < p ==> b.left[w] == n && !b.waiting[w]
    ensures b.counter == base + p * n
  {
    TotalOfEqual(Arrivals(b), n);
  }

  /** If every worker that has not passed n barriers is spinning, one is released. */
  lemma SomeoneReleased(b: Barrier, base: nat, p: nat, n: nat) returns (w: nat)
    requires Inv(b, base, p)
    requires forall v :: 0 <= v < p ==> b.waiting[v] || b.left[v] == n
    requires forall v :: 0 <= v < p ==> b.Arrived(v) <= n
    requires exists v :: 0 <= v < p && b.waiting[v]
    ensures w < p && b.waiting[w] && Released(b, base, p, w)
  {
    w :| w < p && b.waiting[w];
    for v := 0 to p
      invariant w < p && b.waiting[w]
      invariant forall q :: 0 <= q < v && b.waiting[q] ==> b.left[w] <= b.left[q]
    {
      if b.waiting[v] && b.left[v] < b.left[w] {
        w := v;
      }
    }
    forall v | 0 <= v < p ensures b.Arrived(v) >= b.left[w] + 1 {
      assert b.Arrived(w) <= n;
    }
    ReleasedIff(b, base, p, w);
  }
}
