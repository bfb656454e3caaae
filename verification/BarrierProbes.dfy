/** The two grid-barrier probe kernels: per-round slots, which no schedule can
    disturb, and a single reused slot, whose reads may be one round late. */
module BarrierProbes {
  import opened CounterBarrier
  import opened GridMachine
  import opened GridStride
  import opened Tasks

  // ---- judge / m0_racefree: one slot per round and worker ---------------------------

  /** out[r * P + w], out[ROUNDS * P + w], and worker w's register acc. */
  datatype Cell = Slot(r: nat, w: nat) | Sum(w: nat) | Acc(w: nat)

  function Neighbour(p: nat, w: nat): nat
    requires w < p
  {
    (w + 1) % p
  }

  /** Between two barriers: take in the neighbour's slot of the round just closed
      and, unless all rounds are done, store this worker's slot of the next one. */
  function RoundTask(p: nat, rounds: nat, k: nat, w: nat): Task<Cell, int>
    requires w < p
  {
    var ins := if k == 0 then [] else [Acc(w), Slot(k - 1, Neighbour(p, w))];
    var acc := (x: seq<int>) => if |x| == 2 then x[0] + x[1] else 0;
    if k < rounds then
      Task(ins, [Acc(w), Slot(k, w)], (x: seq<int>, i: nat) => if i == 0 then acc(x) else w * 1000 + k)
    else
      Task(ins, [Sum(w)], (x: seq<int>, i: nat) => acc(x))
  }

  lemma RoundsApart(p: nat, rounds: nat, k: nat, w: nat, v: nat)
    requires w < p && v < p && w != v
    ensures Apart(RoundTask(p, rounds, k, w), RoundTask(p, rounds, k, v))
  {
  }

  function Judge(p: nat, rounds: nat): (g: Program<Cell, int>)
    requires p > 0
    ensures g.p == p && |g.phases| == |g.owner| == rounds + 1 && g.Good()
    ensures forall k :: 0 <= k <= rounds ==> |g.phases[k]| == |g.owner[k]| == p
    ensures forall k, w :: 0 <= k <= rounds && 0 <= w < p ==>
      g.phases[k][w] == RoundTask(p, rounds, k, w) && g.owner[k][w] == w
  {
    var g := Program(p, seq(rounds + 1, k requires 0 <= k => seq(p, w requires 0 <= w < p => RoundTask(p, rounds, k, w))),
                     seq(rounds + 1, _ => seq(p, w requires 0 <= w => w)));
    assert g.Good() by {
      hide Apart;
      forall k | 0 <= k <= rounds ensures RaceFree(g.phases[k]) {
        forall i, j | 0 <= i < p && 0 <= j < p && i != j ensures Apart(g.phases[k][i], g.phases[k][j]) {
          RoundsApart(p, rounds, k, i, j);
        }
      }
    }
    g
  }

  /** What the probe's host expects worker `nb`'s reader to have added up. */
  function Expected(nb: nat, n: nat): int {
    if n == 0 then 0 else Expected(nb, n - 1) + (nb * 1000 + (n - 1))
  }

  /** After k + 1 phases every slot of round k is stored and every accumulator has
      taken in k rounds. */
  lemma {:induction false} RoundsRun(p: nat, rounds: nat, m: Memory<Cell, int>, k: nat)
    requires p > 0 && k <= rounds
    ensures var m2 := RunPhases(m, Judge(p, rounds).phases, k + 1);
      forall w :: 0 <= w < p ==>
        && (k < rounds ==> m2(Slot(k, w)) == w * 1000 + k && m2(Acc(w)) == Expected(Neighbour(p, w), k))
        && (k == rounds ==> m2(Sum(w)) == Expected(Neighbour(p, w), k))
  {
    hide Judge, RunTasks, RaceFree, Expected;
    var g := Judge(p, rounds);
    if k > 0 { RoundsRun(p, rounds, m, k - 1); }
    var before := RunPhases(m, g.phases, k);
    PhaseCells(before, g.phases[k], p);
    forall w | 0 <= w < p
      ensures var m2 := RunPhases(m, g.phases, k + 1);
        && (k < rounds ==> m2(Slot(k, w)) == w * 1000 + k && m2(Acc(w)) == Expected(Neighbour(p, w), k))
        && (k == rounds ==> m2(Sum(w)) == Expected(Neighbour(p, w), k))
    {
      RoundOutput(p, rounds, before, k, w);
      var t := g.phases[k][w];
      assert k < rounds ==> t.outs[0] == Acc(w) && t.outs[1] == Slot(k, w);
      assert k == rounds ==> t.outs[0] == Sum(w);
    }
  }

  lemma RoundOutput(p: nat, rounds: nat, m: Memory<Cell, int>, k: nat, w: nat)
    requires w < p && k <= rounds
    requires k > 0 ==> m(Acc(w)) == Expected(Neighbour(p, w), k - 1)
    requires k > 0 ==> m(Slot(k - 1, Neighbour(p, w))) == Neighbour(p, w) * 1000 + (k - 1)
    ensures var t := RoundTask(p, rounds, k, w);
      && t.Out(m, 0) == Expected(Neighbour(p, w), k)
      && (k < rounds ==> t.Out(m, 1) == w * 1000 + k)
  {
    var t := RoundTask(p, rounds, k, w);
    if k > 0 {
      assert t.Loads(m) == [m(Acc(w)), m(Slot(k - 1, Neighbour(p, w)))];
    }
  }

  /** The sum of nb * 1000 + r over the rounds, closed. */
  lemma {:induction false} ExpectedClosed(nb: nat, n: nat)
    ensures 2 * Expected(nb, n) == 2000 * (n * nb) + n * (n - 1)
  {
    if n > 0 { ExpectedClosed(nb, n - 1); }
  }

  lemma NeighbourIs(p: nat, w: nat)
    requires w < p
    ensures Neighbour(p, w) == if w + 1 < p then w + 1 else 0
  {
  }

  /** Whatever the interleaving, every worker's sum is exact, the values its neighbour
      stored over all rounds, and the counter ends at base + P * ROUNDS. */
  lemma JudgeExact(p: nat, rounds: nat, base: nat, m: Memory<Cell, int>, sched: seq<nat>, w: nat)
    requires w < p && forall i :: 0 <= i < |sched| ==> sched[i] < p
    requires Finished(Judge(p, rounds), Exec(Judge(p, rounds), base, m, sched))
    ensures var nb := if w + 1 < p then w + 1 else 0;
      2 * Exec(Judge(p, rounds), base, m, sched).mem(Sum(w)) == 2000 * (rounds * nb) + rounds * (rounds - 1)
    ensures Exec(Judge(p, rounds), base, m, sched).bar.counter == base + p * rounds
  {
    hide Judge, RunPhases, Exec, Finished, Expected, Program.Good;
    RunsAgree(Judge(p, rounds), base, m, sched);
    RoundsRun(p, rounds, m, rounds);
    NeighbourIs(p, w);
    ExpectedClosed(Neighbour(p, w), rounds);
  }

  // ---- vis_kernel: one slot, stored by worker 0 each round ---------------------------

  /** got[w]: what worker w has read, one value a round. stored: worker 0 has
      stored its current round's value into the slot. */
  datatype Vis = Vis(bar: Barrier, stored: bool, slot: int, got: seq<seq<int>>)

  function VisStart(p: nat, base: nat, slot: int): Vis {
    Vis(Fresh(p, base), false, slot, seq(p, _ => []))
  }

  ghost predicate VisShaped(s: Vis, p: nat) { s.bar.Shaped(p) && |s.got| == p }

  /** One step of worker w: leave, read, store (worker 0 only), or arrive. */
  function VisStep(s: Vis, base: nat, p: nat, rounds: nat, w: nat): (s2: Vis)
    requires VisShaped(s, p) && w < p
    ensures VisShaped(s2, p)
  {
    if s.bar.waiting[w] then
      if Released(s.bar, base, p, w) then
        s.(bar := Leave(s.bar, w), stored := if w == 0 then false else s.stored)
      else s
    else if |s.got[w]| < s.bar.left[w] then
      s.(got := s.got[w := s.got[w] + [s.slot]])
    else if s.bar.left[w] < rounds then
      if w == 0 && !s.stored then s.(stored := true, slot := s.bar.left[0])
      else s.(bar := Arrive(s.bar, w))
    else s
  }

  /** A read is of the round just closed, or of the next one when there is one;
      worker 0 always reads its own. */
  predicate ReadOk(w: nat, r: nat, v: int, rounds: nat) {
    v == r || (v == r + 1 && r + 1 < rounds && w != 0)
  }

  ghost predicate VisInv(s: Vis, base: nat, p: nat, rounds: nat, init: int) {
    && VisShaped(s, p) && CounterBarrier.Inv(s.bar, base, p)
    && (forall w :: 0 <= w < p ==> s.bar.Arrived(w) <= rounds)
    && (forall w :: 0 <= w < p ==>
          |s.got[w]| == s.bar.left[w] || (|s.got[w]| + 1 == s.bar.left[w] && !s.bar.waiting[w]))
    && (s.bar.waiting[0] ==> s.stored)
    && (s.stored ==> s.slot == s.bar.left[0] < rounds && |s.got[0]| == s.bar.left[0])
    && (!s.stored ==> s.slot == if s.bar.left[0] > 0 then s.bar.left[0] - 1 else init)
    && (forall w, r :: 0 <= w < p && 0 <= r < |s.got[w]| ==> ReadOk(w, r, s.got[w][r], rounds))
  }

  lemma VisStartInv(p: nat, base: nat, rounds: nat, init: int)
    requires p > 0
    ensures VisInv(VisStart(p, base, init), base, p, rounds, init)
  {
    FreshInv(base, p);
  }

  lemma VisReads(s: Vis, base: nat, p: nat, rounds: nat, init: int, w: nat)
    requires VisInv(s, base, p, rounds, init) && w < p && !s.bar.waiting[w] && |s.got[w]| < s.bar.left[w]
    ensures ReadOk(w, |s.got[w]|, s.slot, rounds)
  {
    assert s.bar.left[w] <= s.bar.Arrived(0);
    assert s.bar.left[0] <= s.bar.Arrived(w);
  }

  lemma VisLeave(s: Vis, base: nat, p: nat, rounds: nat, init: int, w: nat)
    requires VisInv(s, base, p, rounds, init) && w < p && s.bar.waiting[w] && Released(s.bar, base, p, w)
    ensures VisInv(VisStep(s, base, p, rounds, w), base, p, rounds, init)
  {
    LeaveInv(s.bar, base, p, w);
    hide CounterBarrier.Inv, ReadOk;
    var s2 := VisStep(s, base, p, rounds, w);
    assert s2.bar == Leave(s.bar, w);
    forall v | 0 <= v < p ensures s2.bar.Arrived(v) == s.bar.Arrived(v) {
    }
  }

  lemma VisRead(s: Vis, base: nat, p: nat, rounds: nat, init: int, w: nat)
    requires VisInv(s, base, p, rounds, init) && w < p && !s.bar.waiting[w] && |s.got[w]| < s.bar.left[w]
    ensures VisInv(VisStep(s, base, p, rounds, w), base, p, rounds, init)
  {
    VisReads(s, base, p, rounds, init, w);
    hide CounterBarrier.Inv, ReadOk;
  }

  lemma VisStore(s: Vis, base: nat, p: nat, rounds: nat, init: int)
    requires VisInv(s, base, p, rounds, init) && !s.bar.waiting[0] && |s.got[0]| == s.bar.left[0] < rounds && !s.stored
    ensures VisInv(VisStep(s, base, p, rounds, 0), base, p, rounds, init)
  {
    hide CounterBarrier.Inv, ReadOk;
  }

  lemma VisArrive(s: Vis, base: nat, p: nat, rounds: nat, init: int, w: nat)
    requires VisInv(s, base, p, rounds, init) && w < p && !s.bar.waiting[w] && |s.got[w]| == s.bar.left[w] < rounds
    requires w == 0 ==> s.stored
    ensures VisInv(VisStep(s, base, p, rounds, w), base, p, rounds, init)
  {
    ArriveInv(s.bar, base, p, w);
    hide CounterBarrier.Inv, ReadOk;
    var s2 := VisStep(s, base, p, rounds, w);
    assert s2.bar == Arrive(s.bar, w);
    forall v | 0 <= v < p ensures s2.bar.Arrived(v) <= rounds {
      assert s.bar.Arrived(v) <= rounds;
    }
  }

  lemma VisStepInv(s: Vis, base: nat, p: nat, rounds: nat, init: int, w: nat)
    requires VisInv(s, base, p, rounds, init) && w < p
    ensures VisInv(VisStep(s, base, p, rounds, w), base, p, rounds, init)
  {
    hide CounterBarrier.Inv, ReadOk, Released;
    if s.bar.waiting[w] {
      if Released(s.bar, base, p, w) { VisLeave(s, base, p, rounds, init, w); }
    } else if |s.got[w]| < s.bar.left[w] {
      VisRead(s, base, p, rounds, init, w);
    } else if s.bar.left[w] < rounds {
      if w == 0 && !s.stored {
        VisStore(s, base, p, rounds, init);
      } else {
        VisArrive(s, base, p, rounds, init, w);
      }
    }
  }

  function VisExec(p: nat, base: nat, rounds: nat, init: int, sched: seq<nat>): (s: Vis)
    requires forall i :: 0 <= i < |sched| ==> sched[i] < p
    ensures VisShaped(s, p)
  {
    if sched == [] then VisStart(p, base, init)
    else VisStep(VisExec(p, base, rounds, init, sched[..|sched| - 1]), base, p, rounds, sched[|sched| - 1])
  }

  /** In every run, a round-r read is r or r + 1 and nothing else; the last round
      and worker 0 never see the next value. */
  lemma {:induction false} VisReadsExact(p: nat, base: nat, rounds: nat, init: int, sched: seq<nat>)
    requires p > 0 && forall i :: 0 <= i < |sched| ==> sched[i] < p
    ensures VisInv(VisExec(p, base, rounds, init, sched), base, p, rounds, init)
    ensures forall w, r :: 0 <= w < p && 0 <= r < |VisExec(p, base, rounds, init, sched).got[w]| ==>
      ReadOk(w, r, VisExec(p, base, rounds, init, sched).got[w][r], rounds)
  {
    hide VisStep;
    if sched == [] {
      VisStartInv(p, base, rounds, init);
    } else {
      VisReadsExact(p, base, rounds, init, sched[..|sched| - 1]);
      VisStepInv(VisExec(p, base, rounds, init, sched[..|sched| - 1]), base, p, rounds, init, sched[|sched| - 1]);
    }
  }

  lemma VisSnoc(p: nat, base: nat, rounds: nat, init: int, sched: seq<nat>, w: nat)
    requires w < p && forall i :: 0 <= i < |sched| ==> sched[i] < p
    ensures forall i :: 0 <= i < |sched + [w]| ==> (sched + [w])[i] < p
    ensures VisExec(p, base, rounds, init, sched + [w])
      == VisStep(VisExec(p, base, rounds, init, sched), base, p, rounds, w)
  {
    hide VisStep;
    assert (sched + [w])[..|sched|] == sched;
  }

  ghost predicate Scheduled(sched: seq<nat>, p: nat) { forall i :: 0 <= i < |sched| ==> sched[i] < p }

  /** Worker w spins at barrier k, having read k values. */
  predicate AtBarrier(s: Vis, p: nat, w: nat, k: nat)
    requires VisShaped(s, p) && w < p
  {
    s.bar.waiting[w] && s.bar.left[w] == k == |s.got[w]|
  }

  /** The first n workers spin at barrier k, the others still at the one before it
      (or have not begun). */
  ghost predicate Gathered(s: Vis, p: nat, k: nat, n: nat)
    requires VisShaped(s, p)
  {
    && (forall v :: 0 <= v < n && v < p ==> AtBarrier(s, p, v, k))
    && (forall v :: n <= v < p ==>
          if k == 0 then !s.bar.waiting[v] && s.bar.left[v] == 0 == |s.got[v]| else AtBarrier(s, p, v, k - 1))
  }

  lemma GatheredArrived(s: Vis, p: nat, k: nat, n: nat)
    requires VisShaped(s, p) && Gathered(s, p, k, n)
    ensures forall v :: 0 <= v < p ==> s.bar.Arrived(v) >= k
    ensures forall v :: 0 <= v < n && v < p ==> s.bar.Arrived(v) >= k + 1
  {
    forall v | 0 <= v < p ensures s.bar.Arrived(v) >= if v < n then k + 1 else k {
      assert k > 0 && v >= n ==> AtBarrier(s, p, v, k - 1);
      assert v < n ==> AtBarrier(s, p, v, k);
    }
  }

  lemma OthersKept(s: Vis, base: nat, p: nat, rounds: nat, w: nat)
    requires VisShaped(s, p) && w < p
    ensures var s2 := VisStep(s, base, p, rounds, w);
      forall v :: 0 <= v < p && v != w ==>
        s2.bar.left[v] == s.bar.left[v] && s2.bar.waiting[v] == s.bar.waiting[v] && s2.got[v] == s.got[v]
  {
  }

  /** One more step of worker w. */
  lemma Then(p: nat, base: nat, rounds: nat, init: int, sched: seq<nat>, w: nat) returns (more: seq<nat>)
    requires w < p && Scheduled(sched, p)
    ensures more == sched + [w] && Scheduled(more, p)
    ensures VisExec(p, base, rounds, init, more) == VisStep(VisExec(p, base, rounds, init, sched), base, p, rounds, w)
    ensures var s, s2 := VisExec(p, base, rounds, init, sched), VisExec(p, base, rounds, init, more);
      forall v :: 0 <= v < p && v != w ==>
        s2.bar.left[v] == s.bar.left[v] && s2.bar.waiting[v] == s.bar.waiting[v] && s2.got[v] == s.got[v]
  {
    more := sched + [w];
    VisSnoc(p, base, rounds, init, sched, w);
    OthersKept(VisExec(p, base, rounds, init, sched), base, p, rounds, w);
  }

  /** A worker whose barrier everyone has reached leaves it and reads the slot. */
  lemma LeaveAndRead(p: nat, base: nat, rounds: nat, init: int, sched: seq<nat>, w: nat, k: nat) returns (more: seq<nat>)
    requires w < p && Scheduled(sched, p) && AtBarrier(VisExec(p, base, rounds, init, sched), p, w, k)
    requires forall v :: 0 <= v < p ==> VisExec(p, base, rounds, init, sched).bar.Arrived(v) >= k + 1
    ensures Scheduled(more, p)
    ensures var s, s2 := VisExec(p, base, rounds, init, sched), VisExec(p, base, rounds, init, more);
      && !s2.bar.waiting[w] && s2.bar.left[w] == k + 1 && s2.got[w] == s.got[w] + [s.slot] && s2.slot == s.slot
      && (forall v :: 0 <= v < p && v != w ==>
            s2.bar.left[v] == s.bar.left[v] && s2.bar.waiting[v] == s.bar.waiting[v] && s2.got[v] == s.got[v])
      && s2.stored == (s.stored && w != 0)
  {
    hide VisExec;
    var s := VisExec(p, base, rounds, init, sched);
    VisReadsExact(p, base, rounds, init, sched);
    ReleasedIff(s.bar, base, p, w);
    hide CounterBarrier.Inv, VisInv;
    more := Then(p, base, rounds, init, sched, w);
    more := Then(p, base, rounds, init, more, w);
  }

  /** Worker v joins the first v at barrier k. */
  lemma Joins(p: nat, base: nat, rounds: nat, init: int, sched: seq<nat>, k: nat, v: nat) returns (more: seq<nat>)
    requires v < p && k < rounds && Scheduled(sched, p) && Gathered(VisExec(p, base, rounds, init, sched), p, k, v)
    ensures Scheduled(more, p) && Gathered(VisExec(p, base, rounds, init, more), p, k, v + 1)
  {
    hide VisExec;
    more := sched;
    GatheredArrived(VisExec(p, base, rounds, init, sched), p, k, v);
    if k > 0 {
      assert AtBarrier(VisExec(p, base, rounds, init, sched), p, v, k - 1);
      more := LeaveAndRead(p, base, rounds, init, sched, v, k - 1);
    }
    if v == 0 && !VisExec(p, base, rounds, init, more).stored {
      more := Then(p, base, rounds, init, more, v);
    }
    more := Then(p, base, rounds, init, more, v);
    var s, s2 := VisExec(p, base, rounds, init, sched), VisExec(p, base, rounds, init, more);
    assert AtBarrier(s2, p, v, k);
    forall u | 0 <= u < v ensures AtBarrier(s2, p, u, k) {
      assert AtBarrier(s, p, u, k);
    }
    if k > 0 {
      var j := k - 1;
      forall u | v < u < p ensures AtBarrier(s2, p, u, j) {
        assert AtBarrier(s, p, u, j);
      }
    }
  }

  /** Everyone can be brought to barrier k. */
  lemma {:induction false} Gather(p: nat, base: nat, rounds: nat, init: int, k: nat, n: nat) returns (sched: seq<nat>)
    requires 0 < p && n <= p && k < rounds
    ensures Scheduled(sched, p) && Gathered(VisExec(p, base, rounds, init, sched), p, k, n)
    decreases k, n
  {
    hide VisStep;
    if n > 0 {
      sched := Gather(p, base, rounds, init, k, n - 1);
      hide VisExec;
      sched := Joins(p, base, rounds, init, sched, k, n - 1);
    } else if k > 0 {
      sched := Gather(p, base, rounds, init, k - 1, p);
      hide VisExec;
    } else {
      sched := [];
    }
  }

  /** The late read happens, for every worker but the storing one and in every round
      but the last: worker 0 closes the round and stores the next value first. */
  lemma LateRead(p: nat, base: nat, rounds: nat, init: int, w: nat, r: nat) returns (sched: seq<nat>)
    requires 0 < w < p && r + 1 < rounds
    ensures Scheduled(sched, p)
    ensures var got := VisExec(p, base, rounds, init, sched).got[w]; |got| == r + 1 && got[r] == r + 1
  {
    hide VisExec, VisStep;
    sched := Gather(p, base, rounds, init, r, p);
    var s := VisExec(p, base, rounds, init, sched);
    GatheredArrived(s, p, r, p);
    assert AtBarrier(s, p, 0, r) && AtBarrier(s, p, w, r);
    sched := LeaveAndRead(p, base, rounds, init, sched, 0, r);
    sched := StoresNext(p, base, rounds, init, sched, r + 1);
    var s2 := VisExec(p, base, rounds, init, sched);
    forall v | 0 <= v < p ensures s2.bar.Arrived(v) >= r + 1 {
      assert s.bar.Arrived(v) >= r + 1;
    }
    sched := LeaveAndRead(p, base, rounds, init, sched, w, r);
  }

  lemma StoresNext(p: nat, base: nat, rounds: nat, init: int, sched: seq<nat>, k: nat) returns (more: seq<nat>)
    requires 0 < p && Scheduled(sched, p) && k < rounds
    requires var s := VisExec(p, base, rounds, init, sched);
      !s.bar.waiting[0] && s.bar.left[0] == k == |s.got[0]| && !s.stored
    ensures Scheduled(more, p)
    ensures var s, s2 := VisExec(p, base, rounds, init, sched), VisExec(p, base, rounds, init, more);
      s2 == s.(stored := true, slot := k)
  {
    hide VisExec;
    more := Then(p, base, rounds, init, sched, 0);
  }

  /** The prompt read happens, for every worker and round. */
  lemma PromptRead(p: nat, base: nat, rounds: nat, init: int, w: nat, r: nat) returns (sched: seq<nat>)
    requires w < p && r < rounds
    ensures Scheduled(sched, p)
    ensures var got := VisExec(p, base, rounds, init, sched).got[w]; |got| == r + 1 && got[r] == r
  {
    hide VisExec, VisStep;
    sched := Gather(p, base, rounds, init, r, p);
    var s := VisExec(p, base, rounds, init, sched);
    VisReadsExact(p, base, rounds, init, sched);
    GatheredArrived(s, p, r, p);
    assert AtBarrier(s, p, 0, r) && AtBarrier(s, p, w, r);
    assert s.slot == r;
    sched := LeaveAndRead(p, base, rounds, init, sched, w, r);
  }

  /** Exactly the values a worker's round-r read returns in some run. */
  lemma ReadsIff(p: nat, base: nat, rounds: nat, init: int, w: nat, r: nat, v: int)
    requires w < p && r < rounds
    ensures ReadOk(w, r, v, rounds) <==>
      exists sched: seq<nat> :: Scheduled(sched, p) && Reads(p, base, rounds, init, sched, w, r, v)
  {
    hide VisExec;
    if ReadOk(w, r, v, rounds) {
      var sched;
      if v == r { sched := PromptRead(p, base, rounds, init, w, r); } else { sched := LateRead(p, base, rounds, init, w, r); }
      assert Reads(p, base, rounds, init, sched, w, r, v);
    }
    forall sched: seq<nat> | Scheduled(sched, p) && Reads(p, base, rounds, init, sched, w, r, v)
      ensures ReadOk(w, r, v, rounds)
    {
      VisReadsExact(p, base, rounds, init, sched);
    }
  }

  /** In the run sched, worker w's round-r read has returned v. */
  ghost predicate Reads(p: nat, base: nat, rounds: nat, init: int, sched: seq<nat>, w: nat, r: nat, v: int)
    requires w < p && Scheduled(sched, p)
  {
    var got := VisExec(p, base, rounds, init, sched).got[w];
    r < |got| && got[r] == v
  }
}
