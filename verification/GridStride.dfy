/** How the tasks of one call are dealt to the workers: `task = worker; while
    task < count: ...; task += P`. */
module GridStride {
  import opened IntArith

  /** The indices below n that `owner` gives to worker w, in increasing order. */
  function Mine(owner: seq<nat>, w: nat, n: nat): (r: seq<nat>)
    requires n <= |owner|
    ensures forall i :: 0 <= i < |r| ==> r[i] < n && owner[r[i]] == w
    ensures forall i, k :: 0 <= i < k < |r| ==> r[i] < r[k]
  {
    if n == 0 then [] else Mine(owner, w, n - 1) + if owner[n - 1] == w then [n - 1] else []
  }

  /** Every index is its owner's, at some place in that worker's list. */
  lemma {:induction false} MineCovers(owner: seq<nat>, n: nat, j: nat) returns (i: nat)
    requires j < n <= |owner|
    ensures i < |Mine(owner, owner[j], n)| && Mine(owner, owner[j], n)[i] == j
  {
    if j == n - 1 {
      i := |Mine(owner, owner[j], n - 1)|;
    } else {
      i := MineCovers(owner, n - 1, j);
    }
  }

  /** Nothing in between belongs to w. */
  lemma {:induction false} MineSkips(owner: seq<nat>, w: nat, n: nat, k: nat)
    requires n <= k <= |owner| && forall j :: n <= j < k ==> owner[j] != w
    ensures Mine(owner, w, k) == Mine(owner, w, n)
    decreases k
  {
    if n < k { MineSkips(owner, w, n, k - 1); }
  }

  /** The call's tasks are start, start + 1, ...; task j of it belongs to worker j mod P. */
  ghost predicate RoundRobin(owner: seq<nat>, start: nat, count: nat, p: nat)
    requires p > 0
  {
    start + count <= |owner| && forall j :: start <= j < start + count ==> owner[j] == (j - start) % p
  }

  lemma NextOfWorker(p: nat, task: nat, t: nat)
    requires p > 0 && task <= t <= task + p
    ensures t % p == task % p <==> t == task || t == task + p
  {
    DivMod(task, p);
    var q, r, d := task / p, task % p, t - task;
    MulSucc(q, p);
    if r + d < p {
      DivUnique(t, p, q);
    } else {
      MulSucc(q + 1, p);
      DivUnique(t, p, q + 1);
    }
  }

  /** From one visited task to the next, the worker owns nothing else. */
  lemma MineJumps(owner: seq<nat>, start: nat, count: nat, p: nat, w: nat, task: nat)
    requires w < p && RoundRobin(owner, start, count, p) && task < count && task % p == w
    ensures start + task < |owner| && start + Least(task + p, count) <= |owner|
    ensures Mine(owner, w, start + Least(task + p, count)) == Mine(owner, w, start + task) + [start + task]
    ensures (task + p) % p == w
  {
    NextOfWorker(p, task, task + p);
    var next := start + Least(task + p, count);
    forall j | start + task + 1 <= j < next ensures owner[j] != w {
      NextOfWorker(p, task, j - start);
    }
    MineSkips(owner, w, start + task + 1, next);
  }

  /** Below its own number, the worker owns nothing of this call. */
  lemma MineStarts(owner: seq<nat>, start: nat, count: nat, p: nat, w: nat)
    requires w < p && RoundRobin(owner, start, count, p)
    ensures w % p == w && start + Least(w, count) <= |owner|
    ensures Mine(owner, w, start + Least(w, count)) == Mine(owner, w, start)
  {
    DivUnique(w, p, 0);
    var first := start + Least(w, count);
    forall j | start <= j < first ensures owner[j] != w {
      DivUnique(j - start, p, 0);
    }
    MineSkips(owner, w, start, first);
  }

  /** The loop every task body runs. It visits exactly the worker's own tasks of
      this call, in order. */
  method Stride(ghost owner: seq<nat>, start: nat, count: nat, p: nat, w: nat) returns (visited: seq<nat>)
    requires w < p && RoundRobin(owner, start, count, p)
    ensures Mine(owner, w, start + count) == Mine(owner, w, start) + visited
  {
    hide Mine, RoundRobin;
    var task := w;
    visited := [];
    MineStarts(owner, start, count, p, w);
    while task < count
      invariant task % p == w && start + Least(task, count) <= |owner|
      invariant Mine(owner, w, start + Least(task, count)) == Mine(owner, w, start) + visited
      decreases count - task
    {
      MineJumps(owner, start, count, p, w, task);
      visited := visited + [start + task];
      task := task + p;
    }
  }
}
