/** P workers run the phases of a program over one shared memory, one load or
    store at a time, with a grid barrier between consecutive phases. */
module GridMachine {
  import opened CounterBarrier
  import opened GridStride
  import opened Tasks
  import opened Totals

  /** owner[k][j]: the worker that runs task j of phase k. */
  datatype Program<!A(==), !V> = Program(p: nat, phases: seq<seq<Task<A, V>>>, owner: seq<seq<nat>>)
  {
    /** Barriers: one after every phase but the last. */
    function Barriers(): int { |phases| - 1 }

    ghost predicate Good() {
      && p > 0 && 0 < |phases| == |owner|
      && (forall k :: 0 <= k < |phases| ==> |owner[k]| == |phases[k]| && RaceFree(phases[k]))
      && (forall k, j :: 0 <= k < |owner| && 0 <= j < |owner[k]| ==> owner[k][j] < p)
    }

    /** The tasks of phase k that worker w runs, in its order. */
    function Share(k: nat, w: nat): seq<nat>
      requires k < |owner|
    {
      Mine(owner[k], w, |owner[k]|)
    }

    function TaskAt(k: nat, w: nat, i: nat): Task<A, V>
      requires k < |phases| == |owner| && |owner[k]| == |phases[k]| && i < |Share(k, w)|
    {
      phases[k][Share(k, w)[i]]
    }
  }

  /** Worker w is at place at[w] of its share of phase bar.left[w]; it has done
      pc[w] of that task's loads and stores, and loaded[w] is what it has read. */
  datatype State<!A, V> = State(bar: Barrier, at: seq<nat>, pc: seq<nat>, loaded: seq<seq<V>>, mem: Memory<A, V>)

  ghost predicate Shaped<A, V>(g: Program<A, V>, s: State<A, V>) {
    && s.bar.Shaped(g.p) && |s.at| == |s.pc| == |s.loaded| == g.p
    && (forall w :: 0 <= w < g.p ==> s.bar.left[w] < |g.phases|)
  }

  function Start<A, V>(g: Program<A, V>, base: nat, m: Memory<A, V>): State<A, V> {
    State(Fresh(g.p, base), seq(g.p, _ => 0), seq(g.p, _ => 0), seq(g.p, _ => []), m)
  }

  /** Worker w can take a step: it is not spinning on a closed barrier and has
      not run off the end of the last phase. */
  predicate Enabled<A(==), V>(g: Program<A, V>, base: nat, s: State<A, V>, w: nat)
    requires g.Good() && Shaped(g, s) && w < g.p
  {
    if s.bar.waiting[w] then Released(s.bar, base, g.p, w) && s.bar.left[w] < g.Barriers()
    else s.at[w] < |g.Share(s.bar.left[w], w)| || s.bar.left[w] < g.Barriers()
  }

  /** One step inside a task: a load, a store, or going on to the next task. */
  function TaskStep<A(==), V>(s: State<A, V>, t: Task<A, V>, w: nat): State<A, V>
    requires w < |s.at| == |s.pc| == |s.loaded|
  {
    var c := s.pc[w];
    if c < |t.ins| then
      s.(pc := s.pc[w := c + 1], loaded := s.loaded[w := s.loaded[w] + [s.mem(t.ins[c])]])
    else if c < |t.ins| + |t.outs| then
      s.(pc := s.pc[w := c + 1], mem := Put(s.mem, t.outs[c - |t.ins|], t.body(s.loaded[w], c - |t.ins|)))
    else
      s.(at := s.at[w := s.at[w] + 1], pc := s.pc[w := 0], loaded := s.loaded[w := []])
  }

  /** One atomic step of worker w. */
  function Step<A(==), V>(g: Program<A, V>, base: nat, s: State<A, V>, w: nat): State<A, V>
    requires g.Good() && Shaped(g, s) && w < g.p
  {
    if !Enabled(g, base, s, w) then
      s
    else if s.bar.waiting[w] then
      s.(bar := Leave(s.bar, w), at := s.at[w := 0])
    else if s.at[w] < |g.Share(s.bar.left[w], w)| then
      TaskStep(s, g.TaskAt(s.bar.left[w], w, s.at[w]), w)
    else
      s.(bar := Arrive(s.bar, w))
  }

  lemma StepShaped<A, V>(g: Program<A, V>, base: nat, s: State<A, V>, w: nat)
    requires g.Good() && Shaped(g, s) && w < g.p
    ensures Shaped(g, Step(g, base, s, w))
  {
  }

  /** The memory the sequential run has when phase k begins. */
  ghost function Before<A, V>(g: Program<A, V>, m: Memory<A, V>, k: nat): Memory<A, V>
    requires k <= |g.phases|
  {
    RunPhases(m, g.phases, k)
  }

  /** r names a result of task i of worker w's share of phase k. */
  ghost predicate Result<A, V>(g: Program<A, V>, k: nat, w: int, i: int, r: int)
    requires g.Good() && k < |g.phases|
  {
    0 <= w < g.p && 0 <= i < |g.Share(k, w)| && 0 <= r < |g.TaskAt(k, w, i).outs|
  }

  /** In phase k, worker w has stored result r of its i-th task. */
  ghost predicate Stored<A, V>(g: Program<A, V>, s: State<A, V>, k: nat, w: int, i: int, r: int)
    requires g.Good() && Shaped(g, s) && k < |g.phases| && Result(g, k, w, i, r)
  {
    s.bar.left[w] == k && (i < s.at[w] || (i == s.at[w] && |g.TaskAt(k, w, i).ins| + r < s.pc[w]))
  }

  /** Where worker w is, and what it holds: a prefix of the loads of its task,
      as the phase's own starting memory would answer them. */
  ghost predicate Placed<A, V>(g: Program<A, V>, m: Memory<A, V>, s: State<A, V>, w: nat)
    requires g.Good() && Shaped(g, s) && w < g.p
  {
    var k := s.bar.left[w];
    var share := g.Share(k, w);
    if s.at[w] < |share| then
      var t := g.TaskAt(k, w, s.at[w]);
      && !s.bar.waiting[w]
      && s.pc[w] <= |t.ins| + |t.outs|
      && s.loaded[w] == t.Loads(Before(g, m, k))[..if s.pc[w] < |t.ins| then s.pc[w] else |t.ins|]
    else
      s.at[w] == |share| && s.pc[w] == 0 && s.loaded[w] == []
  }

  /** Every worker is in phase k, or has finished phase k - 1 and waits to enter k. */
  ghost predicate InPhase<A, V>(g: Program<A, V>, s: State<A, V>, k: nat)
    requires Shaped(g, s)
  {
    && k < |g.phases|
    && forall w :: 0 <= w < g.p ==>
         || s.bar.left[w] == k
         || (s.bar.left[w] + 1 == k && s.bar.waiting[w])
  }

  /** Results already stored in phase k are the sequential run's. */
  ghost predicate ResultsHold<A, V>(g: Program<A, V>, m: Memory<A, V>, s: State<A, V>, k: nat)
    requires g.Good() && Shaped(g, s) && k < |g.phases|
  {
    forall w, i, r :: Result(g, k, w, i, r) && Stored(g, s, k, w, i, r) ==>
      s.mem(g.TaskAt(k, w, i).outs[r]) == g.TaskAt(k, w, i).Out(Before(g, m, k), r)
  }

  /** No store of phase k has reached cell a yet. */
  ghost predicate Unwritten<A, V>(g: Program<A, V>, s: State<A, V>, k: nat, a: A)
    requires g.Good() && Shaped(g, s) && k < |g.phases|
  {
    forall w, i, r :: Result(g, k, w, i, r) && Stored(g, s, k, w, i, r) ==> g.TaskAt(k, w, i).outs[r] != a
  }

  ghost predicate RestHolds<A(!new), V>(g: Program<A, V>, m: Memory<A, V>, s: State<A, V>, k: nat)
    requires g.Good() && Shaped(g, s) && k < |g.phases|
  {
    forall a :: Unwritten(g, s, k, a) ==> s.mem(a) == Before(g, m, k)(a)
  }

  /** The invariant of every interleaving; k is the phase in progress. */
  ghost predicate Inv<A(!new), V>(g: Program<A, V>, base: nat, m: Memory<A, V>, s: State<A, V>, k: nat) {
    && g.Good() && Shaped(g, s)
    && CounterBarrier.Inv(s.bar, base, g.p)
    && InPhase(g, s, k)
    && (forall w :: 0 <= w < g.p && s.bar.waiting[w] ==> s.bar.left[w] < g.Barriers())
    && (forall w :: 0 <= w < g.p ==> Placed(g, m, s, w))
    && ResultsHold(g, m, s, k)
    && RestHolds(g, m, s, k)
  }

  lemma StartInv<A(!new), V>(g: Program<A, V>, base: nat, m: Memory<A, V>)
    requires g.Good()
    ensures Inv(g, base, m, Start(g, base, m), 0)
  {
    FreshInv(base, g.p);
    var s := Start(g, base, m);
    forall w | 0 <= w < g.p ensures Placed(g, m, s, w) {
      assert s.bar.left[w] == 0 && s.at[w] == 0 && s.loaded[w] == [];
    }
    forall w, i, r | Result(g, 0, w, i, r)
      ensures !Stored(g, s, 0, w, i, r)
    {
    }
  }

  /** Two places hold different tasks. */
  lemma DifferentTasks<A, V>(g: Program<A, V>, k: nat, w: nat, i: nat, v: nat, j: nat)
    requires g.Good() && k < |g.phases| && i < |g.Share(k, w)| && j < |g.Share(k, v)|
    requires w != v || i != j
    ensures g.Share(k, w)[i] != g.Share(k, v)[j]
    ensures Apart(g.TaskAt(k, w, i), g.TaskAt(k, v, j))
  {
    var a, b := g.Share(k, w)[i], g.Share(k, v)[j];
    if w != v {
      assert g.owner[k][a] == w && g.owner[k][b] == v;
    }
    assert Apart(g.phases[k][a], g.phases[k][b]);
  }

  /** A running worker's inputs have not been written in this phase. */
  lemma InputUnwritten<A(!new), V>(g: Program<A, V>, base: nat, m: Memory<A, V>, s: State<A, V>, k: nat, w: nat)
    requires Inv(g, base, m, s, k) && w < g.p && s.bar.left[w] == k && s.at[w] < |g.Share(k, w)|
    requires s.pc[w] < |g.TaskAt(k, w, s.at[w]).ins|
    ensures Unwritten(g, s, k, g.TaskAt(k, w, s.at[w]).ins[s.pc[w]])
  {
    var t := g.TaskAt(k, w, s.at[w]);
    forall v, i, r | Result(g, k, v, i, r) && Stored(g, s, k, v, i, r)
      ensures g.TaskAt(k, v, i).outs[r] != t.ins[s.pc[w]]
    {
      DifferentTasks(g, k, v, i, w, s.at[w]);
    }
  }

  /** A step that stores nothing and keeps track of what is stored keeps both
      statements about memory. */
  lemma SameMemory<A(!new), V>(g: Program<A, V>, m: Memory<A, V>, s: State<A, V>, s2: State<A, V>, k: nat)
    requires g.Good() && Shaped(g, s) && Shaped(g, s2) && k < |g.phases|
    requires ResultsHold(g, m, s, k) && RestHolds(g, m, s, k) && s2.mem == s.mem
    requires forall w, i, r :: Result(g, k, w, i, r) ==> (Stored(g, s2, k, w, i, r) <==> Stored(g, s, k, w, i, r))
    ensures ResultsHold(g, m, s2, k) && RestHolds(g, m, s2, k)
  {
    forall a | Unwritten(g, s2, k, a) ensures Unwritten(g, s, k, a) {
    }
  }

  lemma OthersPlaced<A(!new), V>(g: Program<A, V>, m: Memory<A, V>, s: State<A, V>, s2: State<A, V>, w: nat)
    requires g.Good() && Shaped(g, s) && Shaped(g, s2) && w < g.p
    requires forall v :: 0 <= v < g.p ==> Placed(g, m, s, v)
    requires forall v :: 0 <= v < g.p && v != w ==>
      && s2.bar.left[v] == s.bar.left[v] && s2.bar.waiting[v] == s.bar.waiting[v]
      && s2.at[v] == s.at[v] && s2.pc[v] == s.pc[v] && s2.loaded[v] == s.loaded[v]
    requires Placed(g, m, s2, w)
    ensures forall v :: 0 <= v < g.p ==> Placed(g, m, s2, v)
  {
    forall v | 0 <= v < g.p ensures Placed(g, m, s2, v) {
      if v != w { assert Placed(g, m, s, v); }
    }
  }

  /** Worker w is inside a task of the phase in progress. */
  ghost predicate Working<A(!new), V>(g: Program<A, V>, base: nat, m: Memory<A, V>, s: State<A, V>, k: nat, w: nat) {
    && Inv(g, base, m, s, k) && w < g.p && !s.bar.waiting[w]
    && s.bar.left[w] == k && s.at[w] < |g.Share(k, w)|
  }

  lemma LoadInv<A(!new), V>(g: Program<A, V>, base: nat, m: Memory<A, V>, s: State<A, V>, k: nat, w: nat)
    requires Working(g, base, m, s, k, w) && s.pc[w] < |g.TaskAt(k, w, s.at[w]).ins|
    ensures Inv(g, base, m, TaskStep(s, g.TaskAt(k, w, s.at[w]), w), k)
  {
    hide RunPhases, CounterBarrier.Inv;
    var t := g.TaskAt(k, w, s.at[w]);
    var s2 := TaskStep(s, t, w);
    var x := t.Loads(Before(g, m, k));
    assert Placed(g, m, s, w);
    InputUnwritten(g, base, m, s, k, w);
    assert s.mem(t.ins[s.pc[w]]) == x[s.pc[w]];
    assert x[..s.pc[w]] + [x[s.pc[w]]] == x[..s.pc[w] + 1];
    if s.pc[w] + 1 == |t.ins| { assert x[..|t.ins|] == x; }
    assert Placed(g, m, s2, w);
    OthersPlaced(g, m, s, s2, w);
    SameMemory(g, m, s, s2, k);
  }

  lemma StoreInv<A(!new), V>(g: Program<A, V>, base: nat, m: Memory<A, V>, s: State<A, V>, k: nat, w: nat)
    requires Working(g, base, m, s, k, w)
    requires var t := g.TaskAt(k, w, s.at[w]); |t.ins| <= s.pc[w] < |t.ins| + |t.outs|
    ensures Inv(g, base, m, TaskStep(s, g.TaskAt(k, w, s.at[w]), w), k)
  {
    hide RunPhases, CounterBarrier.Inv;
    var i, t := s.at[w], g.TaskAt(k, w, s.at[w]);
    var s2, c := TaskStep(s, t, w), s.pc[w] - |t.ins|;
    var x := t.Loads(Before(g, m, k));
    assert Placed(g, m, s, w);
    assert x[..|t.ins|] == x;
    assert s2.mem(t.outs[c]) == t.Out(Before(g, m, k), c);
    assert Placed(g, m, s2, w);
    OthersPlaced(g, m, s, s2, w);
    assert Result(g, k, w, i, c) && Stored(g, s2, k, w, i, c);
    forall v, j, r | Result(g, k, v, j, r) && Stored(g, s2, k, v, j, r)
      ensures s2.mem(g.TaskAt(k, v, j).outs[r]) == g.TaskAt(k, v, j).Out(Before(g, m, k), r)
    {
      StoredElsewhere(g, s, k, w, c, v, j, r);
    }
    forall a | Unwritten(g, s2, k, a) ensures s2.mem(a) == Before(g, m, k)(a) {
      assert a != t.outs[c];
      assert Unwritten(g, s, k, a);
    }
  }

  /** Apart from result c of its task, what worker w's store leaves stored was
      stored before, in another cell. */
  lemma StoredElsewhere<A(!new), V>(g: Program<A, V>, s: State<A, V>, k: nat, w: nat, c: nat,
                                    v: int, j: int, r: int)
    requires g.Good() && Shaped(g, s) && k < |g.phases| && w < g.p && s.bar.left[w] == k
    requires s.at[w] < |g.Share(k, w)|
    requires c < |g.TaskAt(k, w, s.at[w]).outs| && s.pc[w] == |g.TaskAt(k, w, s.at[w]).ins| + c
    requires Result(g, k, v, j, r) && Stored(g, TaskStep(s, g.TaskAt(k, w, s.at[w]), w), k, v, j, r)
    ensures (v == w && j == s.at[w] && r == c)
      || (Stored(g, s, k, v, j, r) && g.TaskAt(k, v, j).outs[r] != g.TaskAt(k, w, s.at[w]).outs[c])
  {
    var t := g.TaskAt(k, w, s.at[w]);
    if v != w || j != s.at[w] {
      DifferentTasks(g, k, w, s.at[w], v, j);
      assert Apart(t, g.TaskAt(k, v, j));
    } else if r != c {
      assert t.Distinct();
    }
  }

  lemma NextInv<A(!new), V>(g: Program<A, V>, base: nat, m: Memory<A, V>, s: State<A, V>, k: nat, w: nat)
    requires Working(g, base, m, s, k, w)
    requires var t := g.TaskAt(k, w, s.at[w]); s.pc[w] >= |t.ins| + |t.outs|
    ensures Inv(g, base, m, TaskStep(s, g.TaskAt(k, w, s.at[w]), w), k)
  {
    hide RunPhases, CounterBarrier.Inv;
    var s2 := TaskStep(s, g.TaskAt(k, w, s.at[w]), w);
    assert Placed(g, m, s, w);
    if s2.at[w] < |g.Share(k, w)| {
      var u := g.TaskAt(k, w, s2.at[w]);
      assert u.Loads(Before(g, m, k))[..0] == [];
    }
    assert Placed(g, m, s2, w);
    OthersPlaced(g, m, s, s2, w);
    SameMemory(g, m, s, s2, k);
  }

  lemma ArriveKeeps<A(!new), V>(g: Program<A, V>, base: nat, m: Memory<A, V>, s: State<A, V>, k: nat, w: nat)
    requires Inv(g, base, m, s, k) && w < g.p && !s.bar.waiting[w]
    requires s.at[w] == |g.Share(s.bar.left[w], w)| && s.bar.left[w] < g.Barriers()
    ensures Inv(g, base, m, s.(bar := Arrive(s.bar, w)), k)
  {
    hide RunPhases;
    var s2 := s.(bar := Arrive(s.bar, w));
    ArriveInv(s.bar, base, g.p, w);
    hide CounterBarrier.Inv;
    assert Placed(g, m, s, w);
    assert Placed(g, m, s2, w);
    OthersPlaced(g, m, s, s2, w);
    SameMemory(g, m, s, s2, k);
  }

  /** Joining a phase stores nothing in it. */
  lemma JoinStored<A(!new), V>(g: Program<A, V>, s: State<A, V>, s2: State<A, V>, k: nat, w: nat)
    requires g.Good() && Shaped(g, s) && Shaped(g, s2) && k < |g.phases| && w < g.p
    requires s.bar.left[w] + 1 == k && s.pc[w] == 0 && s2 == s.(bar := Leave(s.bar, w), at := s.at[w := 0])
    ensures forall v, i, r :: Result(g, k, v, i, r) ==> (Stored(g, s2, k, v, i, r) <==> Stored(g, s, k, v, i, r))
  {
  }

  /** A worker let through from phase k - 1 joins the phase in progress. */
  lemma JoinInv<A(!new), V>(g: Program<A, V>, base: nat, m: Memory<A, V>, s: State<A, V>, k: nat, w: nat)
    requires Inv(g, base, m, s, k) && w < g.p && s.bar.waiting[w] && s.bar.left[w] + 1 == k
    requires Released(s.bar, base, g.p, w)
    ensures Inv(g, base, m, s.(bar := Leave(s.bar, w), at := s.at[w := 0]), k)
  {
    hide RunPhases, ResultsHold, RestHolds, Stored, Mine;
    var s2 := s.(bar := Leave(s.bar, w), at := s.at[w := 0]);
    LeaveInv(s.bar, base, g.p, w);
    hide CounterBarrier.Inv;
    assert Placed(g, m, s, w);
    PlacedAtStart(g, m, s2, w);
    OthersPlaced(g, m, s, s2, w);
    JoinStored(g, s, s2, k, w);
    SameMemory(g, m, s, s2, k);
  }

  lemma PlacedAtStart<A(!new), V>(g: Program<A, V>, m: Memory<A, V>, s: State<A, V>, w: nat)
    requires g.Good() && Shaped(g, s) && w < g.p && !s.bar.waiting[w]
    requires s.at[w] == 0 && s.pc[w] == 0 && s.loaded[w] == []
    ensures Placed(g, m, s, w)
  {
    var k := s.bar.left[w];
    if 0 < |g.Share(k, w)| {
      assert g.TaskAt(k, w, 0).Loads(Before(g, m, k))[..0] == [];
    }
  }

  /** Once every worker has finished its share of phase k, memory is what the
      sequential run has after phase k. */
  lemma PhaseFinished<A(!new), V>(g: Program<A, V>, base: nat, m: Memory<A, V>, s: State<A, V>, k: nat)
    requires Inv(g, base, m, s, k)
    requires forall w :: 0 <= w < g.p ==> s.bar.left[w] == k && s.at[w] == |g.Share(k, w)|
    ensures forall a :: s.mem(a) == Before(g, m, k + 1)(a)
  {
    hide CounterBarrier.Inv;
    var tasks, now := g.phases[k], Before(g, m, k);
    PhaseCells(now, tasks, |tasks|);
    forall a ensures s.mem(a) == Before(g, m, k + 1)(a) {
      if Untouched(tasks, |tasks|, a) {
        forall w, i, r | Result(g, k, w, i, r) ensures g.TaskAt(k, w, i).outs[r] != a {
          assert tasks[g.Share(k, w)[i]] == g.TaskAt(k, w, i);
        }
        assert Unwritten(g, s, k, a);
      } else {
        var j :| 0 <= j < |tasks| && a in tasks[j].outs;
        var r: nat :| r < |tasks[j].outs| && tasks[j].outs[r] == a;
        var w := g.owner[k][j];
        var i := MineCovers(g.owner[k], |g.owner[k]|, j);
        assert g.TaskAt(k, w, i) == tasks[j];
        assert Result(g, k, w, i, r) && Stored(g, s, k, w, i, r);
      }
    }
  }

  /** The first worker let through after phase k opens phase k + 1. */
  lemma AdvanceInv<A(!new), V>(g: Program<A, V>, base: nat, m: Memory<A, V>, s: State<A, V>, k: nat, w: nat)
    requires Inv(g, base, m, s, k) && w < g.p && s.bar.waiting[w] && s.bar.left[w] == k
    requires Released(s.bar, base, g.p, w)
    ensures k < g.Barriers()
    ensures Inv(g, base, m, s.(bar := Leave(s.bar, w), at := s.at[w := 0]), k + 1)
  {
    hide RunPhases;
    var s2 := s.(bar := Leave(s.bar, w), at := s.at[w := 0]);
    LeaveInv(s.bar, base, g.p, w);
    hide CounterBarrier.Inv;
    assert k < g.Barriers();
    forall v | 0 <= v < g.p
      ensures s.bar.left[v] == k && s.bar.waiting[v] && s.at[v] == |g.Share(k, v)|
    {
      assert s.bar.Arrived(v) >= k + 1;
      assert Placed(g, m, s, v);
    }
    PhaseFinished(g, base, m, s, k);
    hide ResultsHold, RestHolds;
    assert Placed(g, m, s, w);
    PlacedAtStart(g, m, s2, w);
    OthersPlaced(g, m, s, s2, w);
    FreshPhase(g, m, s2, k + 1);
  }

  /** At the start of a phase nothing of it has been stored. */
  lemma FreshPhase<A(!new), V>(g: Program<A, V>, m: Memory<A, V>, s: State<A, V>, k: nat)
    requires g.Good() && Shaped(g, s) && k < |g.phases|
    requires forall w :: 0 <= w < g.p && s.bar.left[w] == k ==> s.at[w] == 0 && s.pc[w] == 0
    requires forall a :: s.mem(a) == Before(g, m, k)(a)
    ensures ResultsHold(g, m, s, k) && RestHolds(g, m, s, k)
  {
  }

  /** Every step of every worker keeps the invariant. */
  lemma StepInv<A(!new), V>(g: Program<A, V>, base: nat, m: Memory<A, V>, s: State<A, V>, k: nat, w: nat)
      returns (k2: nat)
    requires Inv(g, base, m, s, k) && w < g.p
    ensures Inv(g, base, m, Step(g, base, s, w), k2)
  {
    hide RunPhases, CounterBarrier.Inv, ResultsHold, RestHolds, Mine;
    k2 := k;
    assert Placed(g, m, s, w);
    if Enabled(g, base, s, w) {
      if s.bar.waiting[w] {
        if s.bar.left[w] == k {
          AdvanceInv(g, base, m, s, k, w);
          k2 := k + 1;
        } else {
          JoinInv(g, base, m, s, k, w);
        }
      } else if s.at[w] < |g.Share(s.bar.left[w], w)| {
        var t := g.TaskAt(k, w, s.at[w]);
        assert Working(g, base, m, s, k, w);
        if s.pc[w] < |t.ins| {
          LoadInv(g, base, m, s, k, w);
        } else if s.pc[w] < |t.ins| + |t.outs| {
          StoreInv(g, base, m, s, k, w);
        } else {
          NextInv(g, base, m, s, k, w);
        }
      } else {
        ArriveKeeps(g, base, m, s, k, w);
      }
    }
  }

  /** The state after a schedule: which worker takes each step. */
  function Exec<A(==), V>(g: Program<A, V>, base: nat, m: Memory<A, V>, sched: seq<nat>): (s: State<A, V>)
    requires g.Good() && forall i :: 0 <= i < |sched| ==> sched[i] < g.p
    ensures Shaped(g, s)
  {
    if sched == [] then Start(g, base, m)
    else
      var s := Exec(g, base, m, sched[..|sched| - 1]);
      StepShaped(g, base, s, sched[|sched| - 1]);
      Step(g, base, s, sched[|sched| - 1])
  }

  lemma {:induction false} ExecInv<A(!new), V>(g: Program<A, V>, base: nat, m: Memory<A, V>, sched: seq<nat>)
      returns (k: nat)
    requires g.Good() && forall i :: 0 <= i < |sched| ==> sched[i] < g.p
    ensures Inv(g, base, m, Exec(g, base, m, sched), k)
  {
    if sched == [] {
      StartInv(g, base, m);
      k := 0;
    } else {
      k := ExecInv(g, base, m, sched[..|sched| - 1]);
      k := StepInv(g, base, m, Exec(g, base, m, sched[..|sched| - 1]), k, sched[|sched| - 1]);
    }
  }

  /** No worker has anything left to do. */
  ghost predicate Finished<A, V>(g: Program<A, V>, s: State<A, V>)
    requires g.Good() && Shaped(g, s)
  {
    forall w :: 0 <= w < g.p ==>
      !s.bar.waiting[w] && s.bar.left[w] == g.Barriers() && s.at[w] >= |g.Share(g.Barriers(), w)|
  }

  /** What any finished state holds: the sequential run's memory, and a counter
      that has moved by exactly P per barrier. */
  lemma FinishedHolds<A(!new), V>(g: Program<A, V>, base: nat, m: Memory<A, V>, s: State<A, V>, k: nat)
    requires Inv(g, base, m, s, k) && Finished(g, s)
    ensures forall a :: s.mem(a) == RunPhases(m, g.phases, |g.phases|)(a)
    ensures s.bar.counter == base + g.p * g.Barriers()
  {
    assert s.bar.left[0] == g.Barriers();
    assert k == g.Barriers();
    forall w | 0 <= w < g.p ensures s.bar.left[w] == k && s.at[w] == |g.Share(k, w)| {
      assert Placed(g, m, s, w);
    }
    PhaseFinished(g, base, m, s, k);
    CounterAfter(s.bar, base, g.p, k);
  }

  /** Any two complete runs, under any schedules, leave the sequential run's memory. */
  lemma RunsAgree<A(!new), V>(g: Program<A, V>, base: nat, m: Memory<A, V>, sched: seq<nat>)
    requires g.Good() && forall i :: 0 <= i < |sched| ==> sched[i] < g.p
    requires Finished(g, Exec(g, base, m, sched))
    ensures forall a :: Exec(g, base, m, sched).mem(a) == RunPhases(m, g.phases, |g.phases|)(a)
    ensures Exec(g, base, m, sched).bar.counter == base + g.p * g.Barriers()
  {
    var k := ExecInv(g, base, m, sched);
    FinishedHolds(g, base, m, Exec(g, base, m, sched), k);
  }

  /** Whatever a worker has loaded so far, in any state of any run, is what the
      sequential run has in those cells when that phase begins: every earlier
      phase's writer is done, and no writer of this phase has got there first. */
  lemma LoadsAreSettled<A(!new), V>(g: Program<A, V>, base: nat, m: Memory<A, V>, sched: seq<nat>, w: nat, i: nat)
    requires g.Good() && forall i :: 0 <= i < |sched| ==> sched[i] < g.p
    requires w < g.p && i < |Exec(g, base, m, sched).loaded[w]|
    ensures var s := Exec(g, base, m, sched);
      && s.at[w] < |g.Share(s.bar.left[w], w)|
      && i < |g.TaskAt(s.bar.left[w], w, s.at[w]).ins|
      && s.loaded[w][i] == RunPhases(m, g.phases, s.bar.left[w])(g.TaskAt(s.bar.left[w], w, s.at[w]).ins[i])
  {
    var k := ExecInv(g, base, m, sched);
    assert Placed(g, m, Exec(g, base, m, sched), w);
  }

  /** No reachable unfinished state is stuck. */
  lemma NeverStuck<A(!new), V>(g: Program<A, V>, base: nat, m: Memory<A, V>, s: State<A, V>, k: nat) returns (w: nat)
    requires Inv(g, base, m, s, k) && !Finished(g, s)
    ensures w < g.p && Enabled(g, base, s, w)
  {
    hide CounterBarrier.Inv, RunPhases, ResultsHold, RestHolds;
    if v: nat :| v < g.p && !s.bar.waiting[v] && Enabled(g, base, s, v) {
      w := v;
    } else {
      forall v | 0 <= v < g.p
        ensures s.bar.waiting[v] || s.bar.left[v] == g.Barriers()
        ensures s.bar.Arrived(v) <= g.Barriers()
      {
        assert s.bar.waiting[v] ==> s.bar.left[v] < g.Barriers();
      }
      var u :| 0 <= u < g.p && !(!s.bar.waiting[u] && s.bar.left[u] == g.Barriers()
        && s.at[u] >= |g.Share(g.Barriers(), u)|);
      assert s.bar.waiting[u];
      w := SomeoneReleased(s.bar, base, g.p, g.Barriers());
    }
  }

  /** Steps worker w has left from place i of its share of phase k. */
  ghost function Rest<A, V>(g: Program<A, V>, k: nat, w: nat, i: nat): nat
    requires g.Good() && k < |g.phases| && w < g.p
    decreases |g.phases| - k, if i < |g.Share(k, w)| then |g.Share(k, w)| - i else 0
  {
    if i < |g.Share(k, w)| then
      |g.TaskAt(k, w, i).ins| + |g.TaskAt(k, w, i).outs| + 1 + Rest(g, k, w, i + 1)
    else if k < g.Barriers() then
      2 + Rest(g, k + 1, w, 0)
    else 0
  }

  /** Steps worker w has left in state s. */
  ghost function Ahead<A, V>(g: Program<A, V>, s: State<A, V>, w: nat): int
    requires g.Good() && Shaped(g, s) && w < g.p
  {
    if s.bar.waiting[w] && s.bar.left[w] < g.Barriers() then 1 + Rest(g, s.bar.left[w] + 1, w, 0)
    else Rest(g, s.bar.left[w], w, s.at[w]) - s.pc[w]
  }

  ghost predicate Counted<A, V>(g: Program<A, V>, s: State<A, V>)
    requires g.Good() && Shaped(g, s)
  {
    forall w :: 0 <= w < g.p ==> Ahead(g, s, w) >= 0
  }

  lemma InvCounted<A(!new), V>(g: Program<A, V>, base: nat, m: Memory<A, V>, s: State<A, V>, k: nat)
    requires Inv(g, base, m, s, k)
    ensures Counted(g, s)
  {
    forall w | 0 <= w < g.p ensures Ahead(g, s, w) >= 0 {
      assert Placed(g, m, s, w);
    }
  }

  /** Steps left in all. */
  ghost function StepsLeft<A, V>(g: Program<A, V>, s: State<A, V>): nat
    requires g.Good() && Shaped(g, s) && Counted(g, s)
  {
    Total(seq(g.p, w requires 0 <= w < g.p => Ahead(g, s, w) as nat))
  }

  lemma AheadDrops<A(!new), V>(g: Program<A, V>, base: nat, m: Memory<A, V>, s: State<A, V>, w: nat)
    requires g.Good() && Shaped(g, s) && w < g.p && Enabled(g, base, s, w) && Placed(g, m, s, w)
    requires s.bar.waiting[w] ==> s.pc[w] == 0
    ensures Shaped(g, Step(g, base, s, w))
    ensures Ahead(g, Step(g, base, s, w), w) == Ahead(g, s, w) - 1
  {
    hide Mine, RunPhases;
  }

  lemma AheadKept<A(!new), V>(g: Program<A, V>, base: nat, s: State<A, V>, w: nat, v: nat)
    requires g.Good() && Shaped(g, s) && w < g.p && v < g.p && v != w && Shaped(g, Step(g, base, s, w))
    ensures Ahead(g, Step(g, base, s, w), v) == Ahead(g, s, v)
  {
    hide Mine, Rest;
  }

  /** Every enabled step is one step less to do, for its worker alone. */
  lemma StepCosts<A(!new), V>(g: Program<A, V>, base: nat, m: Memory<A, V>, s: State<A, V>, k: nat, w: nat)
    requires Inv(g, base, m, s, k) && w < g.p && Enabled(g, base, s, w)
    requires Shaped(g, Step(g, base, s, w)) && Counted(g, s) && Counted(g, Step(g, base, s, w))
    ensures StepsLeft(g, s) == StepsLeft(g, Step(g, base, s, w)) + 1
  {
    hide CounterBarrier.Inv, RunPhases, ResultsHold, RestHolds, Mine, Step, Ahead;
    var s2 := Step(g, base, s, w);
    assert Placed(g, m, s, w);
    AheadDrops(g, base, m, s, w);
    var n := seq(g.p, v requires 0 <= v < g.p => Ahead(g, s, v) as nat);
    var n2 := seq(g.p, v requires 0 <= v < g.p => Ahead(g, s2, v) as nat);
    forall v | 0 <= v < g.p && v != w ensures n2[v] == n[v] {
      AheadKept(g, base, s, w, v);
    }
    assert n2 == n[w := n[w] - 1];
    TotalUpdate(n, w, n[w] - 1);
  }

  /** Steps in the run so far that were not spins on a closed barrier. */
  ghost function Useful<A, V>(g: Program<A, V>, base: nat, m: Memory<A, V>, sched: seq<nat>): nat
    requires g.Good() && forall i :: 0 <= i < |sched| ==> sched[i] < g.p
  {
    if sched == [] then 0
    else
      Useful(g, base, m, sched[..|sched| - 1])
      + if Enabled(g, base, Exec(g, base, m, sched[..|sched| - 1]), sched[|sched| - 1]) then 1 else 0
  }

  /** Every run does the same amount of work: what is done and what is left add
      up to the same total, so no schedule runs forever except by spinning. */
  lemma {:induction false} ExactCost<A(!new), V>(g: Program<A, V>, base: nat, m: Memory<A, V>, sched: seq<nat>)
    requires g.Good() && forall i :: 0 <= i < |sched| ==> sched[i] < g.p
    ensures Counted(g, Start(g, base, m)) && Counted(g, Exec(g, base, m, sched))
    ensures Useful(g, base, m, sched) + StepsLeft(g, Exec(g, base, m, sched)) == StepsLeft(g, Start(g, base, m))
  {
    StartInv(g, base, m);
    InvCounted(g, base, m, Start(g, base, m), 0);
    if sched != [] {
      var most, w := sched[..|sched| - 1], sched[|sched| - 1];
      ExactCost(g, base, m, most);
      var k := ExecInv(g, base, m, most);
      var k2 := ExecInv(g, base, m, sched);
      InvCounted(g, base, m, Exec(g, base, m, sched), k2);
      if Enabled(g, base, Exec(g, base, m, most), w) {
        StepCosts(g, base, m, Exec(g, base, m, most), k, w);
      }
    }
  }

  lemma InvParts<A(!new), V>(g: Program<A, V>, base: nat, m: Memory<A, V>, s: State<A, V>, k: nat)
    requires Inv(g, base, m, s, k)
    ensures g.Good() && Shaped(g, s) && Counted(g, s)
  {
    InvCounted(g, base, m, s, k);
  }

  lemma EnabledStep<A(!new), V>(g: Program<A, V>, base: nat, m: Memory<A, V>, s: State<A, V>, k: nat, w: nat)
      returns (k2: nat)
    requires g.Good() && Shaped(g, s) && Inv(g, base, m, s, k)
    requires w < g.p && Enabled(g, base, s, w) && Counted(g, s)
    ensures Inv(g, base, m, Step(g, base, s, w), k2)
    ensures Shaped(g, Step(g, base, s, w)) && Counted(g, Step(g, base, s, w))
    ensures StepsLeft(g, Step(g, base, s, w)) < StepsLeft(g, s)
  {
    hide Inv, Step, Enabled, Counted, StepsLeft;
    k2 := StepInv(g, base, m, s, k, w);
    InvParts(g, base, m, Step(g, base, s, w), k2);
    StepCosts(g, base, m, s, k, w);
  }

  /** Some worker that can step, if there is one. */
  method Pick<A(==), V>(g: Program<A, V>, base: nat, s: State<A, V>) returns (found: bool, w: nat)
    requires g.Good() && Shaped(g, s)
    ensures found ==> w < g.p && Enabled(g, base, s, w)
    ensures !found ==> forall v :: 0 <= v < g.p ==> !Enabled(g, base, s, v)
  {
    hide Enabled;
    found, w := false, 0;
    if v :| 0 <= v < g.p && Enabled(g, base, s, v) {
      found, w := true, v;
    }
  }

  /** The workers step in an arbitrary order until none can. All have then
      finished, and memory is the sequential run's. */
  method RunWorkers<A(==, !new), V>(g: Program<A, V>, base: nat, m: Memory<A, V>) returns (s: State<A, V>)
    requires g.Good()
    ensures forall a :: s.mem(a) == RunPhases(m, g.phases, |g.phases|)(a)
    ensures s.bar.counter == base + g.p * g.Barriers()
  {
    hide Inv, Enabled, Step, StepsLeft, Counted, RunPhases, Finished;
    s := Start(g, base, m);
    ghost var k := 0;
    StartInv(g, base, m);
    InvParts(g, base, m, s, k);
    var found: bool, w: nat := Pick(g, base, s);
    while found
      invariant Inv(g, base, m, s, k) && Shaped(g, s) && Counted(g, s)
      invariant found ==> w < g.p && Enabled(g, base, s, w)
      invariant !found ==> forall v :: 0 <= v < g.p ==> !Enabled(g, base, s, v)
      decreases StepsLeft(g, s), found
    {
      k := EnabledStep(g, base, m, s, k, w);
      s := Step(g, base, s, w);
      found, w := Pick(g, base, s);
    }
    AllFinished(g, base, m, s, k);
    FinishedHolds(g, base, m, s, k);
  }

  lemma AllFinished<A(!new), V>(g: Program<A, V>, base: nat, m: Memory<A, V>, s: State<A, V>, k: nat)
    requires Inv(g, base, m, s, k) && Shaped(g, s)
    requires g.Good() && forall v :: 0 <= v < g.p ==> !Enabled(g, base, s, v)
    ensures Finished(g, s)
  {
    hide Inv, Enabled;
    if !Finished(g, s) {
      var w := NeverStuck(g, base, m, s, k);
    }
  }
}
