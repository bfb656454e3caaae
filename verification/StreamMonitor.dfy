/** One stream: a task queue, its worker thread, and any number of threads in
    wait(), all on one condition variable. A step is one critical section; a
    thread that is Parked or Blocked stays so until a notify picks it. */
module StreamMonitor {

  datatype Option<+E> = None | Some(value: E)

  /** Where the worker is: about to test its wait condition, parked un-notified,
      running a task, holding a raised error, about to publish a completion, or gone. */
  datatype WorkerAt<+T, +E> =
    | Checking
    | Parked
    | Running(t: T)
    | Raised(t: T, e: E)
    | Finishing(t: T, outcome: Option<E>)
    | Exited

  /** Where a thread that may call wait() is; Back holds what its last wait raised. */
  datatype CallerAt<+E> = Away | Waking | Blocked | Back(raised: Option<E>)

  /** recent: tasks completed since a wait() last returned, with their outcomes. */
  datatype State<+T, +E> = State(
    queue: seq<T>,
    outstanding: int,
    total: nat,
    failure: Option<E>,
    stop: bool,
    worker: WorkerAt<T, E>,
    callers: seq<CallerAt<E>>,
    recent: seq<(T, Option<E>)>)

  /** Whom a notify() wakes. */
  datatype Pick = Nobody | TheWorker | Caller(c: nat)

  datatype Event<+T, +E> =
    | Submit(t: T, pick: Pick)
    | Close(pick: Pick)
    | CallWait(c: nat)
    | CallerCheck(c: nat)
    | WorkerCheck
    | TaskEnds(outcome: Option<E>)
    | RecordFailure
    | PublishDone

  function Fresh<T, E>(n: nat): State<T, E> {
    State([], 0, 0, None, false, Checking, seq(n, _ => Away), [])
  }

  predicate SomeoneBlocked<T, E>(s: State<T, E>) {
    exists c :: 0 <= c < |s.callers| && s.callers[c].Blocked?
  }

  /** notify() wakes exactly one parked thread, whichever, if there is one. */
  predicate MayPick<T, E>(s: State<T, E>, pick: Pick) {
    match pick
    case Nobody => !s.worker.Parked? && !SomeoneBlocked(s)
    case TheWorker => s.worker.Parked?
    case Caller(c) => c < |s.callers| && s.callers[c].Blocked?
  }

  function Wake<T, E>(s: State<T, E>, pick: Pick): State<T, E>
    requires MayPick(s, pick)
  {
    match pick
    case Nobody => s
    case TheWorker => s.(worker := Checking)
    case Caller(c) => s.(callers := s.callers[c := Waking])
  }

  /** notify_all(). */
  function WakeAll<T, E>(s: State<T, E>): (r: State<T, E>)
    ensures |r.callers| == |s.callers|
  {
    s.(worker := if s.worker.Parked? then Checking else s.worker,
       callers := seq(|s.callers|, c requires 0 <= c < |s.callers| =>
         if s.callers[c].Blocked? then Waking else s.callers[c]))
  }

  predicate Can<T, E>(s: State<T, E>, ev: Event<T, E>) {
    match ev
    case Submit(_, pick) => MayPick(s, pick)
    case Close(pick) => if s.stop then pick.Nobody? else MayPick(s, pick)
    case CallWait(c) => c < |s.callers| && (s.callers[c].Away? || s.callers[c].Back?)
    case CallerCheck(c) => c < |s.callers| && s.callers[c].Waking?
    case WorkerCheck => s.worker.Checking?
    case TaskEnds(_) => s.worker.Running?
    case RecordFailure => s.worker.Raised?
    case PublishDone => s.worker.Finishing?
  }

  function Apply<T, E>(s: State<T, E>, ev: Event<T, E>): (r: State<T, E>)
    requires Can(s, ev)
    ensures |r.callers| == |s.callers|
  {
    match ev
    case Submit(t, pick) =>
      Wake(s, pick).(queue := s.queue + [t], outstanding := s.outstanding + 1, total := s.total + 1)
    case Close(pick) =>
      if s.stop then s else Wake(s, pick).(stop := true)
    case CallWait(c) =>
      s.(callers := s.callers[c := Waking])
    case CallerCheck(c) =>
      if s.outstanding == 0 then s.(callers := s.callers[c := Back(s.failure)], failure := None, recent := [])
      else s.(callers := s.callers[c := Blocked])
    case WorkerCheck =>
      if !s.stop && s.queue == [] then s.(worker := Parked)
      else if s.stop && s.queue == [] then s.(worker := Exited)
      else s.(worker := Running(s.queue[0]), queue := s.queue[1..])
    case TaskEnds(outcome) =>
      s.(worker := if outcome.Some? then Raised(s.worker.t, outcome.value) else Finishing(s.worker.t, None))
    case RecordFailure =>
      s.(worker := Finishing(s.worker.t, Some(s.worker.e)),
         failure := if s.failure.None? then Some(s.worker.e) else s.failure)
    case PublishDone =>
      var s2 := s.(outstanding := s.outstanding - 1, worker := Checking,
                   recent := s.recent + [(s.worker.t, s.worker.outcome)]);
      if s2.outstanding == 0 then WakeAll(s2) else s2
  }

  /** The tasks the worker holds: at most one. */
  function Held<T, E>(s: State<T, E>): seq<T> {
    if s.worker.Running? || s.worker.Raised? || s.worker.Finishing? then [s.worker.t] else []
  }

  /** The first error among these outcomes, in order. */
  function FirstError<T, E>(done: seq<(T, Option<E>)>): Option<E> {
    if done == [] then None
    else if FirstError(done[..|done| - 1]).Some? then FirstError(done[..|done| - 1])
    else done[|done| - 1].1
  }

  /** Completions whose failure, if any, has been recorded. */
  function Recorded<T, E>(s: State<T, E>): seq<(T, Option<E>)> {
    s.recent + if s.worker.Finishing? then [(s.worker.t, s.worker.outcome)] else []
  }

  ghost predicate Inv<T, E>(s: State<T, E>) {
    && s.outstanding == |s.queue| + |Held(s)|
    && (s.worker.Parked? ==> s.queue == [] && !s.stop)
    && (s.worker.Exited? ==> s.stop)
    && (forall c :: 0 <= c < |s.callers| && s.callers[c].Blocked? ==> s.outstanding > 0)
    && s.failure == FirstError(Recorded(s))
  }

  lemma FreshInv<T, E>(n: nat)
    ensures Inv(Fresh<T, E>(n))
  {
  }

  lemma OneMoreOutcome<T, E>(done: seq<(T, Option<E>)>, t: T, outcome: Option<E>)
    ensures FirstError(done + [(t, outcome)]) == if FirstError(done).Some? then FirstError(done) else outcome
  {
    assert (done + [(t, outcome)])[..|done|] == done;
  }

  /** Everything but the end of a task and a caller's collection leaves the recorded outcomes and the failure alone. */
  lemma RecordedKept<T, E>(s: State<T, E>, ev: Event<T, E>)
    requires Can(s, ev) && !ev.CallerCheck? && !ev.TaskEnds? && !ev.RecordFailure?
    ensures Recorded(Apply(s, ev)) == Recorded(s) && Apply(s, ev).failure == s.failure
  {
    hide FirstError;
    if ev.PublishDone? { assert Apply(s, ev).recent == Recorded(s); }
  }

  lemma RecordedInv<T, E>(s: State<T, E>, ev: Event<T, E>)
    requires s.outstanding == |s.queue| + |Held(s)| && s.failure == FirstError(Recorded(s)) && Can(s, ev)
    ensures Apply(s, ev).failure == FirstError(Recorded(Apply(s, ev)))
  {
    hide Wake, WakeAll;
    assert FirstError<T, E>([]) == None;
    hide FirstError;
    match ev
    case CallerCheck(c) =>
      assert Recorded(Apply(s, ev)) == if s.outstanding == 0 then [] else Recorded(s);
    case TaskEnds(outcome) =>
      assert Recorded(s) == s.recent;
      if outcome.None? { OneMoreOutcome(s.recent, s.worker.t, None); }
    case RecordFailure =>
      assert Recorded(s) == s.recent;
      OneMoreOutcome(s.recent, s.worker.t, Some(s.worker.e));
    case _ =>
      hide Apply, Recorded;
      RecordedKept(s, ev);
  }

  lemma OutstandingInv<T, E>(s: State<T, E>, ev: Event<T, E>)
    requires Inv(s) && Can(s, ev)
    ensures Apply(s, ev).outstanding == |Apply(s, ev).queue| + |Held(Apply(s, ev))|
    ensures Apply(s, ev).worker.Parked? ==> Apply(s, ev).queue == [] && !Apply(s, ev).stop
    ensures Apply(s, ev).worker.Exited? ==> Apply(s, ev).stop
  {
    hide FirstError, Recorded;
    if s.worker.Parked? && (ev.Submit? || ev.Close?) {
      assert Held(s) == [] && !SomeoneBlocked(s);
      assert ev.pick == TheWorker || s.stop;
    }
  }

  lemma BlockedInv<T, E>(s: State<T, E>, ev: Event<T, E>, c: nat)
    requires Inv(s) && Can(s, ev) && c < |s.callers| && Apply(s, ev).callers[c].Blocked?
    ensures Apply(s, ev).outstanding > 0
  {
    hide FirstError, Recorded;
  }

  /** Every critical section of every thread, whatever notify() picks, keeps the
      invariant. */
  lemma StepInv<T, E>(s: State<T, E>, ev: Event<T, E>)
    requires Inv(s) && Can(s, ev)
    ensures Inv(Apply(s, ev))
  {
    RecordedInv(s, ev);
    OutstandingInv(s, ev);
    hide FirstError, Recorded, Apply;
    forall c: nat | c < |s.callers| && Apply(s, ev).callers[c].Blocked? ensures Apply(s, ev).outstanding > 0 {
      BlockedInv(s, ev, c);
    }
  }

  /** No lost wake-up. A parked worker has nothing to do and shares the wait set
      with nobody; a blocked wait() is still owed a completion. */
  lemma NoLostWakeup<T, E>(s: State<T, E>)
    requires Inv(s)
    ensures s.worker.Parked? ==> s.queue == [] && s.outstanding == 0 && !s.stop
    ensures forall c :: 0 <= c < |s.callers| && s.callers[c].Blocked? ==> s.outstanding > 0 && !s.worker.Parked?
  {
    hide FirstError;
  }

  /** So the single notify() of submit and close is enough: when the worker is
      parked, it is the only thread a notify can pick. */
  lemma OneNotifyIsEnough<T, E>(s: State<T, E>, pick: Pick)
    requires Inv(s) && s.worker.Parked?
    ensures MayPick(s, pick) <==> pick == TheWorker
  {
    NoLostWakeup(s);
  }

  /** The order of tasks: completed since the last wait, then the one held, then
      the queue. Only submit appends; only a returning wait() clears it. */
  function Tasks<T, E>(s: State<T, E>): seq<T> {
    Names(s.recent) + Held(s) + s.queue
  }

  function Names<T, E>(done: seq<(T, Option<E>)>): (r: seq<T>)
    ensures |r| == |done| && forall i :: 0 <= i < |r| ==> r[i] == done[i].0
  {
    seq(|done|, i requires 0 <= i < |done| => done[i].0)
  }

  lemma Completed<T, E>(done: seq<(T, Option<E>)>, t: T, outcome: Option<E>, queue: seq<T>)
    ensures Names(done + [(t, outcome)]) + [] + queue == Names(done) + [t] + queue
  {
  }

  lemma Taken<T>(done: seq<T>, queue: seq<T>)
    requires queue != []
    ensures done + [queue[0]] + queue[1..] == done + [] + queue
  {
  }

  lemma InOrder<T, E>(s: State<T, E>, ev: Event<T, E>)
    requires Inv(s) && Can(s, ev)
    ensures Tasks(Apply(s, ev)) ==
      if ev.Submit? then Tasks(s) + [ev.t]
      else if ev.CallerCheck? && s.outstanding == 0 then []
      else Tasks(s)
  {
    hide FirstError, Recorded, Names;
    assert Names<T, E>([]) == [];
    var s2 := Apply(s, ev);
    if ev.Submit? {
      assert Held(s2) == Held(s) && s2.recent == s.recent;
    } else if ev.WorkerCheck? && s.queue != [] {
      Taken(Names(s.recent), s.queue);
    } else if ev.PublishDone? {
      Completed(s.recent, s.worker.t, s.worker.outcome, s.queue);
    }
  }

  /** A returning wait() comes after every submitted task has completed, and it
      raises the first failure since a wait() last returned, if there was one. */
  lemma WaitReturns<T, E>(s: State<T, E>, c: nat)
    requires Inv(s) && Can(s, CallerCheck(c))
    ensures Apply(s, CallerCheck(c)).callers[c].Back? <==> s.queue == [] && Held(s) == []
    ensures Apply(s, CallerCheck(c)).callers[c].Back? ==>
      && |s.recent| == |Tasks(s)|
      && Apply(s, CallerCheck(c)).callers[c].raised == FirstError(s.recent)
      && Apply(s, CallerCheck(c)).failure == None
  {
    hide FirstError;
    assert s.queue == [] && Held(s) == [] ==> Recorded(s) == s.recent;
  }

  /** Outcome i is the one reported: all before it succeeded. */
  ghost predicate FirstAt<T, E>(done: seq<(T, Option<E>)>, i: int)
    requires 0 <= i < |done|
  {
    done[i].1.Some? && done[i].1 == FirstError(done) && forall j :: 0 <= j < i ==> done[j].1.None?
  }

  lemma {:induction false} FirstErrorIs<T, E>(done: seq<(T, Option<E>)>)
    ensures FirstError(done).None? <==> forall i :: 0 <= i < |done| ==> done[i].1.None?
    ensures FirstError(done).Some? ==> exists i :: 0 <= i < |done| && FirstAt(done, i)
  {
    if done != [] {
      var most := done[..|done| - 1];
      FirstErrorIs(most);
      if FirstError(most).Some? {
        var i :| 0 <= i < |most| && FirstAt(most, i);
        assert FirstAt(done, i);
      } else {
        assert forall j :: 0 <= j < |most| ==> done[j].1.None? by {
          forall j | 0 <= j < |most| ensures done[j].1.None? { assert most[j].1.None?; }
        }
        assert done[|most|].1.Some? ==> FirstAt(done, |most|);
      }
    }
  }

  // ---- Progress ------------------------------------------------------------------

  /** The worker has gone and left work behind: only a submit after the worker's
      exit can do this. */
  predicate Stranded<T, E>(s: State<T, E>) { s.worker.Exited? && s.outstanding > 0 }

  /** A step of the worker that is open to it, if it has one. */
  predicate WorkerCan<T, E>(s: State<T, E>) {
    s.worker.Checking? || s.worker.Running? || s.worker.Raised? || s.worker.Finishing?
  }

  /** While anything is outstanding the worker can move, unless it is stranded. */
  lemma WorkerMoves<T, E>(s: State<T, E>)
    requires Inv(s) && s.outstanding > 0
    ensures WorkerCan(s) <==> !Stranded(s)
  {
    NoLostWakeup(s);
  }

  /** Worker steps until the queue is drained. */
  ghost function Effort<T, E>(s: State<T, E>): nat {
    4 * |s.queue| + match s.worker
    case Running(_) => 3
    case Raised(_, _) => 2
    case Finishing(_, _) => 1
    case _ => 0
  }

  /** Each worker step that holds or takes a task brings the last completion
      nearer, and no step of a waiting thread puts it off. */
  lemma EffortDrops<T, E>(s: State<T, E>, ev: Event<T, E>)
    requires Inv(s) && Can(s, ev) && !ev.Submit?
    ensures Effort(Apply(s, ev)) <= Effort(s)
    ensures s.outstanding > 0 && (ev.WorkerCheck? || ev.TaskEnds? || ev.RecordFailure? || ev.PublishDone?) ==>
      Effort(Apply(s, ev)) < Effort(s)
  {
    hide FirstError;
  }

  /** The last completion wakes every blocked wait(). */
  lemma LastCompletionWakes<T, E>(s: State<T, E>)
    requires Inv(s) && s.outstanding == 0
    ensures forall c :: 0 <= c < |s.callers| ==> !s.callers[c].Blocked?
  {
    hide FirstError;
  }

  /** Once stranded, always stranded: no wait() returns again. */
  lemma StrandedForever<T, E>(s: State<T, E>, ev: Event<T, E>)
    requires Inv(s) && Stranded(s) && Can(s, ev)
    ensures Stranded(Apply(s, ev))
    ensures forall c :: 0 <= c < |s.callers| && !s.callers[c].Back? ==> !Apply(s, ev).callers[c].Back?
  {
    hide FirstError;
  }

  function Run<T, E>(s: State<T, E>, evs: seq<Event<T, E>>): (r: Option<State<T, E>>)
    ensures r.Some? ==> |r.value.callers| == |s.callers|
  {
    if evs == [] then Some(s)
    else
      var before := Run(s, evs[..|evs| - 1]);
      if before.Some? && Can(before.value, evs[|evs| - 1]) then Some(Apply(before.value, evs[|evs| - 1])) else None
  }

  /** Nothing is submitted after the stream is closed. */
  ghost predicate NoLateSubmit<T, E>(evs: seq<Event<T, E>>) {
    forall i, j :: 0 <= i < j < |evs| ==> !(evs[i].Close? && evs[j].Submit?)
  }

  /** The worker leaves only once the queue is empty, and nothing came after. */
  ghost predicate Served<T, E>(s: State<T, E>) {
    (s.worker.Exited? ==> s.queue == []) && !Stranded(s)
  }

  lemma ServedStep<T, E>(s: State<T, E>, ev: Event<T, E>)
    requires Inv(s) && Can(s, ev) && Served(s) && (ev.Submit? ==> !s.stop)
    ensures Served(Apply(s, ev)) && (Apply(s, ev).stop <==> s.stop || ev.Close?)
  {
    hide FirstError;
  }

  /** From a fresh stream, every run keeps the invariant; and with no submit
      after close it is never stranded. */
  lemma {:induction false} RunInv<T, E>(n: nat, evs: seq<Event<T, E>>)
    requires Run(Fresh(n), evs).Some?
    ensures Inv(Run(Fresh(n), evs).value)
    ensures NoLateSubmit(evs) ==>
      && Served(Run(Fresh(n), evs).value)
      && (Run(Fresh(n), evs).value.stop ==> exists i :: 0 <= i < |evs| && evs[i].Close?)
  {
    hide Inv, Served, Apply, Can;
    if evs == [] {
      FreshInv<T, E>(n);
      assert Served(Fresh<T, E>(n)) by { FreshServed<T, E>(n); }
    } else {
      var most, ev := evs[..|evs| - 1], evs[|evs| - 1];
      RunInv(n, most);
      var s := Run(Fresh(n), most).value;
      StepInv(s, ev);
      if NoLateSubmit(evs) {
        assert NoLateSubmit(most);
        if s.stop {
          var i :| 0 <= i < |most| && most[i].Close?;
          assert evs[i].Close? && !ev.Submit?;
        } else if ev.Close? {
          assert evs[|most|].Close?;
        }
        ServedStep(s, ev);
      }
    }
  }

  lemma FreshServed<T, E>(n: nat)
    ensures Served(Fresh<T, E>(n)) && !Fresh<T, E>(n).stop
  {
  }

  lemma RunSnoc<T, E>(s: State<T, E>, evs: seq<Event<T, E>>, ev: Event<T, E>)
    requires Run(s, evs).Some? && Can(Run(s, evs).value, ev)
    ensures Run(s, evs + [ev]) == Some(Apply(Run(s, evs).value, ev))
  {
    assert (evs + [ev])[..|evs|] == evs;
  }

  /** The tasks submitted in a run, in order. */
  function Submitted<T, E>(evs: seq<Event<T, E>>): seq<T> {
    if evs == [] then []
    else
      var last := evs[|evs| - 1];
      Submitted(evs[..|evs| - 1]) + if last.Submit? then [last.t] else []
  }

  /** The tasks completed in it, in order. */
  function CompletedBy<T, E>(n: nat, evs: seq<Event<T, E>>): seq<T> {
    if evs == [] then []
    else
      var most := evs[..|evs| - 1];
      CompletedBy(n, most) + if evs[|evs| - 1].PublishDone? && Run(Fresh<T, E>(n), most).Some?
        then Held(Run(Fresh<T, E>(n), most).value) else []
  }

  lemma StepOrder<T, E>(s: State<T, E>, ev: Event<T, E>)
    requires Inv(s) && Can(s, ev)
    ensures var r := Apply(s, ev);
      && (ev.Submit? ==> Held(r) == Held(s) && r.queue == s.queue + [ev.t] && r.total == s.total + 1)
      && (ev.PublishDone? ==> |Held(s)| == 1 && Held(r) == [] && r.queue == s.queue && r.total == s.total)
      && (!ev.Submit? && !ev.PublishDone? ==> Held(r) + r.queue == Held(s) + s.queue && r.total == s.total)
  {
    hide FirstError, Inv;
  }

  /** Over any run: the tasks submitted are, in order, those completed, the one held and
      those queued, each once; submitted() counts them, and what is outstanding is
      the rest. */
  lemma {:induction false} RunOrder<T, E>(n: nat, evs: seq<Event<T, E>>)
    requires Run(Fresh(n), evs).Some?
    ensures var s := Run(Fresh<T, E>(n), evs).value;
      && Submitted(evs) == CompletedBy(n, evs) + Held(s) + s.queue
      && s.total == |Submitted(evs)| && s.outstanding == |Submitted(evs)| - |CompletedBy(n, evs)|
  {
    if evs == [] {
      FreshHolds<T, E>(n);
    } else {
      var most, ev := evs[..|evs| - 1], evs[|evs| - 1];
      RunOrder(n, most);
      RunInv(n, most);
      var s := Run(Fresh<T, E>(n), most).value;
      StepOrder(s, ev);
      RunInv(n, evs);
      Outstanding(Apply(s, ev));
      NextOrder(Submitted(most), CompletedBy(n, most), Held(s), s.queue, Held(Apply(s, ev)), Apply(s, ev).queue, ev);
      hide Inv, Apply, Can, Held;
    }
  }

  /** One event, on the sequences alone. */
  lemma NextOrder<T, E>(sub: seq<T>, done: seq<T>, held: seq<T>, queue: seq<T>, held2: seq<T>, queue2: seq<T>, ev: Event<T, E>)
    requires sub == done + held + queue
    requires ev.Submit? ==> held2 == held && queue2 == queue + [ev.t]
    requires ev.PublishDone? ==> held2 == [] && queue2 == queue
    requires !ev.Submit? && !ev.PublishDone? ==> held2 + queue2 == held + queue
    ensures sub + (if ev.Submit? then [ev.t] else []) == done + (if ev.PublishDone? then held else []) + held2 + queue2
  {
    if !ev.Submit? && !ev.PublishDone? {
      assert done + (held + queue) == done + held + queue;
      assert done + (held2 + queue2) == done + [] + held2 + queue2;
    }
  }

  lemma Outstanding<T, E>(s: State<T, E>)
    requires Inv(s)
    ensures s.outstanding == |s.queue| + |Held(s)|
  {
    hide FirstError;
  }

  lemma FreshHolds<T, E>(n: nat)
    ensures var s := Fresh<T, E>(n); Held(s) == [] && s.queue == [] && s.total == 0
  {
  }

  /** Only a submit that finds the worker gone strands a stream. */
  lemma StrandedStep<T, E>(s: State<T, E>, ev: Event<T, E>)
    requires Inv(s) && Can(s, ev)
    ensures Stranded(Apply(s, ev)) <==> Stranded(s) || (ev.Submit? && s.worker.Exited?)
  {
    hide FirstError, Recorded;
  }

  /** Event i is a submit, and the worker has already left. */
  ghost predicate LateSubmit<T, E>(n: nat, evs: seq<Event<T, E>>, i: nat)
    requires i < |evs|
  {
    evs[i].Submit? && Run(Fresh<T, E>(n), evs[..i]).Some? && Run(Fresh<T, E>(n), evs[..i]).value.worker.Exited?
  }

  /** In every run, exactly a submit that comes after the worker has left leaves
      work that is never run. */
  lemma {:induction false} LateSubmitStrands<T, E>(n: nat, evs: seq<Event<T, E>>)
    requires Run(Fresh(n), evs).Some?
    ensures Stranded(Run(Fresh<T, E>(n), evs).value) <==> exists i :: 0 <= i < |evs| && LateSubmit(n, evs, i)
  {
    hide Inv, Apply, Can, Stranded;
    if evs == [] {
      FreshServed<T, E>(n);
    } else {
      var most, ev := evs[..|evs| - 1], evs[|evs| - 1];
      LateSubmitStrands(n, most);
      RunInv(n, most);
      StrandedStep(Run(Fresh<T, E>(n), most).value, ev);
      forall i | 0 <= i < |most| ensures LateSubmit(n, evs, i) <==> LateSubmit(n, most, i) {
        assert evs[..i] == most[..i];
      }
      assert LateSubmit(n, evs, |most|) <==> ev.Submit? && Run(Fresh<T, E>(n), most).value.worker.Exited?;
    }
  }

  /** It does happen: close, the worker leaves, submit. */
  lemma LateSubmitHappens<T, E>(t: T)
    ensures var evs := [Close(Nobody)] + [WorkerCheck] + [Submit(t, Nobody)];
      && Run<T, E>(Fresh(0), evs).Some?
      && Stranded(Run<T, E>(Fresh(0), evs).value)
  {
    var s0: State<T, E> := Fresh(0);
    assert Run<T, E>(s0, []) == Some(s0);
    assert [Close(Nobody)] == [] + [Event<T, E>.Close(Nobody)];
    RunSnoc<T, E>(s0, [], Close(Nobody));
    RunSnoc<T, E>(s0, [Close(Nobody)], WorkerCheck);
    RunSnoc<T, E>(s0, [Close(Nobody)] + [WorkerCheck], Submit(t, Nobody));
  }

  // ---- The class -------------------------------------------------------------------

  /** The stream object. Each method is one critical section. */
  class Stream<T, E> {
    var queue: seq<T>
    var outstanding: int
    var total: nat
    var failure: Option<E>
    var stop: bool
    var worker: WorkerAt<T, E>
    var callers: seq<CallerAt<E>>
    ghost var recent: seq<(T, Option<E>)>

    ghost function Abs(): State<T, E>
      reads this
    {
      State(queue, outstanding, total, failure, stop, worker, callers, recent)
    }

    constructor (n: nat)
      ensures Abs() == Fresh(n) && Inv(Abs())
    {
      queue, outstanding, total, failure, stop := [], 0, 0, None, false;
      worker, callers, recent := Checking, seq(n, _ => Away), [];
    }

    /** notify(): wakes one parked thread, whichever. */
    method Notify() returns (pick: Pick)
      modifies `worker, `callers
      ensures MayPick(old(Abs()), pick) && Abs() == Wake(old(Abs()), pick)
    {
      if worker.Parked? {
        if c :| 0 <= c < |callers| && callers[c].Blocked? {
          if * {
            pick, callers := Caller(c), callers[c := Waking];
          } else {
            pick, worker := TheWorker, Checking;
          }
        } else {
          pick, worker := TheWorker, Checking;
        }
      } else if c :| 0 <= c < |callers| && callers[c].Blocked? {
        pick, callers := Caller(c), callers[c := Waking];
      } else {
        pick := Nobody;
      }
    }

    method NotifyAll()
      modifies `worker, `callers
      ensures Abs() == WakeAll(old(Abs()))
    {
      if worker.Parked? { worker := Checking; }
      var i := 0;
      while i < |callers|
        invariant 0 <= i <= |callers| == old(|callers|)
        invariant worker == if old(worker).Parked? then Checking else old(worker)
        invariant forall c :: 0 <= c < i ==> callers[c] == if old(callers)[c].Blocked? then Waking else old(callers)[c]
        invariant forall c :: i <= c < |callers| ==> callers[c] == old(callers)[c]
        invariant queue == old(queue) && outstanding == old(outstanding) && total == old(total)
        invariant failure == old(failure) && stop == old(stop) && recent == old(recent)
      {
        if callers[i].Blocked? { callers := callers[i := Waking]; }
        i := i + 1;
      }
    }

    /** submit. After it, a worker with nothing to do is never left asleep. */
    method Submit(task: T) returns (pick: Pick)
      requires Inv(Abs())
      modifies this
      ensures Can(old(Abs()), Event.Submit(task, pick)) && Abs() == Apply(old(Abs()), Event.Submit(task, pick))
      ensures Inv(Abs()) && !worker.Parked?
    {
      ghost var before := Abs();
      queue := queue + [task];
      outstanding := outstanding + 1;
      total := total + 1;
      pick := Notify();
      assert MayPick(before, pick);
      StepInv(before, Event.Submit(task, pick));
    }

    /** close, up to the join. */
    method Close() returns (pick: Pick)
      requires Inv(Abs())
      modifies this
      ensures Can(old(Abs()), Event.Close(pick)) && Abs() == Apply(old(Abs()), Event.Close(pick))
      ensures Inv(Abs()) && !worker.Parked?
    {
      ghost var before := Abs();
      if stop {
        pick := Nobody;
      } else {
        stop := true;
        pick := Notify();
        assert MayPick(before, pick);
      }
      StepInv(before, Event.Close(pick));
    }

    /** wait(), from its first test or after a wake-up, up to returning or parking. */
    method WaitCheck(c: nat) returns (back: bool, raised: Option<E>)
      requires Inv(Abs()) && Can(Abs(), CallerCheck(c))
      modifies this
      ensures Inv(Abs()) && Abs() == Apply(old(Abs()), CallerCheck(c))
      ensures back <==> old(queue) == [] && Held(old(Abs())) == []
      ensures back ==> raised == FirstError(old(recent)) && failure == None
    {
      ghost var before := Abs();
      WaitReturns(before, c);
      StepInv(before, CallerCheck(c));
      if outstanding == 0 {
        back, raised := true, failure;
        failure, recent := None, [];
        callers := callers[c := Back(raised)];
      } else {
        back, raised := false, None;
        callers := callers[c := Blocked];
      }
    }

    /** _loop, from its first test or after a wake-up, up to parking, leaving or
        taking the oldest task. */
    method LoopTake()
      requires Inv(Abs()) && Can(Abs(), WorkerCheck)
      modifies this
      ensures Inv(Abs()) && Abs() == Apply(old(Abs()), WorkerCheck)
    {
      StepInv(Abs(), WorkerCheck);
      if !(stop || queue != []) {
        worker := Parked;
      } else if stop && queue == [] {
        worker := Exited;
      } else {
        worker := Running(queue[0]);
        queue := queue[1..];
      }
    }

    /** _loop, the except clause: the first failure is kept. */
    method LoopRecord()
      requires Inv(Abs()) && Can(Abs(), RecordFailure)
      modifies this
      ensures Inv(Abs()) && Abs() == Apply(old(Abs()), RecordFailure)
    {
      StepInv(Abs(), RecordFailure);
      if failure.None? { failure := Some(worker.e); }
      worker := Finishing(worker.t, Some(worker.e));
    }

    /** _loop, the completion. */
    method LoopComplete()
      requires Inv(Abs()) && Can(Abs(), PublishDone)
      modifies this
      ensures Inv(Abs()) && Abs() == Apply(old(Abs()), PublishDone)
    {
      StepInv(Abs(), PublishDone);
      recent := recent + [(worker.t, worker.outcome)];
      outstanding := outstanding - 1;
      worker := Checking;
      if outstanding == 0 { NotifyAll(); }
    }
  }
}
