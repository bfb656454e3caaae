/** A phase that makes several calls in a row: each call deals its own tasks out
    from worker 0, and no barrier separates them. */
module GridCalls {
  import opened GridStride
  import opened IntArith
  import opened Tasks

  function Flat<T>(calls: seq<seq<T>>): (r: seq<T>)
    ensures calls == [] ==> r == []
  {
    if calls == [] then [] else Flat(calls[..|calls| - 1]) + calls[|calls| - 1]
  }

  /** Where call c starts in the flat list. */
  function First<T>(calls: seq<seq<T>>, c: nat): nat
    requires c <= |calls|
  {
    |Flat(calls[..c])|
  }

  lemma {:induction false} FlatAt<T>(calls: seq<seq<T>>, c: nat, t: nat)
    requires c < |calls| && t < |calls[c]|
    ensures First(calls, c) + t < |Flat(calls)| && Flat(calls)[First(calls, c) + t] == calls[c][t]
  {
    var most := calls[..|calls| - 1];
    if c < |most| {
      FlatAt(most, c, t);
      assert most[..c] == calls[..c];
    }
  }

  lemma {:induction false} FlatFind<T>(calls: seq<seq<T>>, j: nat) returns (c: nat, t: nat)
    requires j < |Flat(calls)|
    ensures c < |calls| && t < |calls[c]| && j == First(calls, c) + t && Flat(calls)[j] == calls[c][t]
  {
    var most := calls[..|calls| - 1];
    if j < |Flat(most)| {
      c, t := FlatFind(most, j);
      assert most[..c] == calls[..c];
    } else {
      c, t := |most|, j - |Flat(most)|;
    }
  }

  /** No two calls race, and no call races with itself. */
  ghost predicate CallsApart<A, V>(calls: seq<seq<Task<A, V>>>) {
    && (forall c :: 0 <= c < |calls| ==> RaceFree(calls[c]))
    && (forall c, d :: 0 <= c < |calls| && 0 <= d < |calls| && c != d ==> AllApart(calls[c], calls[d]))
  }

  ghost predicate AllApart<A, V>(a: seq<Task<A, V>>, b: seq<Task<A, V>>) {
    forall i, j :: 0 <= i < |a| && 0 <= j < |b| ==> Apart(a[i], b[j])
  }

  lemma FlatRaceFree<A, V>(calls: seq<seq<Task<A, V>>>)
    requires CallsApart(calls)
    ensures RaceFree(Flat(calls))
  {
    var tasks := Flat(calls);
    forall j | 0 <= j < |tasks| ensures tasks[j].Distinct() {
      var c, t := FlatFind(calls, j);
    }
    forall i, j | 0 <= i < |tasks| && 0 <= j < |tasks| && i != j ensures Apart(tasks[i], tasks[j]) {
      var c, t := FlatFind(calls, i);
      var d, u := FlatFind(calls, j);
      if c != d { assert AllApart(calls[c], calls[d]); }
    }
  }

  /** The worker of each task of the phase. */
  function Deal<T>(calls: seq<seq<T>>, p: nat): (r: seq<nat>)
    requires p > 0
    ensures |r| == |Flat(calls)|
  {
    if calls == [] then []
    else
      var last := calls[|calls| - 1];
      Deal(calls[..|calls| - 1], p) + seq(|last|, t requires 0 <= t => t % p)
  }

  lemma {:induction false} DealWorkers<T>(calls: seq<seq<T>>, p: nat)
    requires p > 0
    ensures forall j :: 0 <= j < |Deal(calls, p)| ==> Deal(calls, p)[j] < p
  {
    if calls != [] {
      DealWorkers(calls[..|calls| - 1], p);
      var last := calls[|calls| - 1];
      forall t: nat | t < |last| ensures t % p < p {
        DivMod(t, p);
      }
    }
  }

  lemma {:induction false} DealRoundRobin<T>(calls: seq<seq<T>>, p: nat, c: nat)
    requires p > 0 && c < |calls|
    ensures RoundRobin(Deal(calls, p), First(calls, c), |calls[c]|, p)
    ensures First(calls, c + 1) == First(calls, c) + |calls[c]| <= |Deal(calls, p)|
  {
    var most := calls[..|calls| - 1];
    assert calls[..c + 1][..c] == calls[..c];
    if c < |most| {
      DealRoundRobin(most, p, c);
      assert most[..c] == calls[..c];
      forall j | First(calls, c) <= j < First(calls, c) + |calls[c]|
        ensures Deal(calls, p)[j] == (j - First(calls, c)) % p
      {
        assert Deal(calls, p)[j] == Deal(most, p)[j];
      }
    } else {
      assert calls[..c] == most;
      assert calls[..c + 1] == calls;
    }
  }

  /** What one worker does in the phase: each call's loop in turn. The visited
      tasks are exactly the ones dealt to it. */
  method Visit<T>(calls: seq<seq<T>>, p: nat, w: nat) returns (visited: seq<nat>)
    requires w < p
    ensures visited == Mine(Deal(calls, p), w, |Flat(calls)|)
  {
    visited := [];
    var start := 0;
    for c := 0 to |calls|
      invariant start == First(calls, c) <= |Flat(calls)|
      invariant visited == Mine(Deal(calls, p), w, start)
    {
      DealRoundRobin(calls, p, c);
      var these := Stride(Deal(calls, p), start, |calls[c]|, p, w);
      visited := visited + these;
      start := start + |calls[c]|;
    }
    assert calls[..|calls|] == calls;
  }
}
