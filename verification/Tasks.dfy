/** Tasks over a shared memory, and their sequential reference run. */
module Tasks {

  /** A shared memory: a value for every cell. */
  type Memory<!A, V> = A -> V

  function Put<A(==), V>(m: Memory<A, V>, a: A, v: V): Memory<A, V> {
    x => if x == a then v else m(x)
  }

  /** Load every cell in `ins`, then store body(loaded, k) to each outs[k]. */
  datatype Task<!A(==), !V> = Task(ins: seq<A>, outs: seq<A>, body: (seq<V>, nat) -> V)
  {
    ghost predicate Distinct() {
      forall i, k :: 0 <= i < k < |outs| ==> outs[i] != outs[k]
    }

    /** The values its loads return in memory m. */
    function Loads(m: Memory<A, V>): (x: seq<V>)
      ensures |x| == |ins| && forall k :: 0 <= k < |x| ==> x[k] == m(ins[k])
    {
      seq(|ins|, k requires 0 <= k < |ins| => m(ins[k]))
    }

    function Out(m: Memory<A, V>, k: nat): V {
      body(Loads(m), k)
    }
  }

  /** m with the first n results of t, computed from x, stored. */
  function Store<A(==), V>(m: Memory<A, V>, t: Task<A, V>, x: seq<V>, n: nat): Memory<A, V>
    requires n <= |t.outs|
  {
    if n == 0 then m else Put(Store(m, t, x, n - 1), t.outs[n - 1], t.body(x, n - 1))
  }

  lemma {:induction false} StoreCells<A(!new), V>(m: Memory<A, V>, t: Task<A, V>, x: seq<V>, n: nat)
    requires n <= |t.outs| && t.Distinct()
    ensures forall k :: 0 <= k < n ==> Store(m, t, x, n)(t.outs[k]) == t.body(x, k)
    ensures forall a :: a !in t.outs[..n] ==> Store(m, t, x, n)(a) == m(a)
  {
    if n > 0 {
      StoreCells(m, t, x, n - 1);
      assert t.outs[..n] == t.outs[..n - 1] + [t.outs[n - 1]];
    }
  }

  /** One task at a time. */
  function RunTask<A(==), V>(m: Memory<A, V>, t: Task<A, V>): Memory<A, V> {
    Store(m, t, t.Loads(m), |t.outs|)
  }

  /** The first n tasks, in order. */
  function RunTasks<A(==), V>(m: Memory<A, V>, tasks: seq<Task<A, V>>, n: nat): Memory<A, V>
    requires n <= |tasks|
  {
    if n == 0 then m else RunTask(RunTasks(m, tasks, n - 1), tasks[n - 1])
  }

  /** The first n phases, in order: the sequential run. */
  function RunPhases<A(==), V>(m: Memory<A, V>, phases: seq<seq<Task<A, V>>>, n: nat): Memory<A, V>
    requires n <= |phases|
  {
    if n == 0 then m
    else RunTasks(RunPhases(m, phases, n - 1), phases[n - 1], |phases[n - 1]|)
  }

  /** a writes nothing b touches. */
  ghost predicate Apart<A, V>(a: Task<A, V>, b: Task<A, V>) {
    forall k :: 0 <= k < |a.outs| ==> a.outs[k] !in b.ins && a.outs[k] !in b.outs
  }

  /** No task of a phase writes a cell another one touches, or one cell twice. */
  ghost predicate RaceFree<A, V>(tasks: seq<Task<A, V>>) {
    && (forall i :: 0 <= i < |tasks| ==> tasks[i].Distinct())
    && (forall i, j :: 0 <= i < |tasks| && 0 <= j < |tasks| && i != j ==> Apart(tasks[i], tasks[j]))
  }

  /** None of the first n tasks writes a. */
  ghost predicate Untouched<A, V>(tasks: seq<Task<A, V>>, n: nat, a: A)
    requires n <= |tasks|
  {
    forall j :: 0 <= j < n ==> a !in tasks[j].outs
  }

  lemma InputUntouched<A, V>(tasks: seq<Task<A, V>>, n: nat, k: nat)
    requires n < |tasks| && RaceFree(tasks) && k < |tasks[n].ins|
    ensures Untouched(tasks, n, tasks[n].ins[k])
  {
    forall j | 0 <= j < n ensures tasks[n].ins[k] !in tasks[j].outs {
      assert Apart(tasks[j], tasks[n]);
    }
  }

  lemma SameLoads<A, V>(m: Memory<A, V>, before: Memory<A, V>, t: Task<A, V>)
    requires forall k :: 0 <= k < |t.ins| ==> before(t.ins[k]) == m(t.ins[k])
    ensures t.Loads(before) == t.Loads(m)
  {
  }

  /** What a race-free phase leaves in memory: every task's results computed from
      the memory the phase started with, and nothing else changed. */
  lemma {:induction false} PhaseCells<A(!new), V>(m: Memory<A, V>, tasks: seq<Task<A, V>>, n: nat)
    requires n <= |tasks| && RaceFree(tasks)
    ensures forall j, k :: 0 <= j < n && 0 <= k < |tasks[j].outs| ==>
      RunTasks(m, tasks, n)(tasks[j].outs[k]) == tasks[j].Out(m, k)
    ensures forall a :: Untouched(tasks, n, a) ==> RunTasks(m, tasks, n)(a) == m(a)
  {
    if n > 0 {
      PhaseCells(m, tasks, n - 1);
      var before, t := RunTasks(m, tasks, n - 1), tasks[n - 1];
      StoreCells(before, t, t.Loads(before), |t.outs|);
      assert t.outs[..|t.outs|] == t.outs;
      forall k | 0 <= k < |t.ins| ensures before(t.ins[k]) == m(t.ins[k]) {
        InputUntouched(tasks, n - 1, k);
      }
      SameLoads(m, before, t);
      forall j, k | 0 <= j < n - 1 && 0 <= k < |tasks[j].outs|
        ensures RunTasks(m, tasks, n)(tasks[j].outs[k]) == tasks[j].Out(m, k)
      {
        assert Apart(tasks[j], t);
      }
      forall a | Untouched(tasks, n, a) ensures RunTasks(m, tasks, n)(a) == m(a) {
        assert Untouched(tasks, n - 1, a) && a !in t.outs;
      }
    }
  }
}
