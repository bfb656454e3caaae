/** OverlapExecutor.run: the caller submits compute(i) to one stream and comm(i)
    to another, each comm waiting on its compute's future, then waits on both. */
module OverlapExecutor {
  import opened StreamMonitor

  datatype Result<+V, +E> = Ok(value: V) | Err(error: E)

  /** The caller of run. WaitComm holds what the compute stream's wait raised. */
  datatype MainAt<+E> = Submitting | WaitCompute | WaitComm(first: Option<E>) | Done(raised: Option<E>)

  datatype Thread = Main | ComputeWorker | CommWorker

  /** The callbacks of one run. */
  datatype Job<!V, !E> = Job(iters: nat, compute: nat -> Result<V, E>, comm: (nat, V) -> Option<E>)
  {
    /** How compute task i ends. */
    function ComputeEnd(i: nat): Option<E> {
      match compute(i) case Ok(_) => None case Err(e) => Some(e)
    }

    /** How comm task i ends: reading a failed future raises that failure again. */
    function CommEnd(i: nat): Option<E> {
      match compute(i) case Ok(v) => comm(i, v) case Err(e) => Some(e)
    }

    function ComputeEnds(): nat -> Option<E> { (i: nat) => ComputeEnd(i) }

    function CommEnds(): nat -> Option<E> { (i: nat) => CommEnd(i) }

    /** The calls of comm among the first n tasks. */
    function Calls(n: nat): seq<(nat, V)> {
      if n == 0 then []
      else Calls(n - 1) + match compute(n - 1) case Ok(v) => [(n - 1, v)] case Err(_) => []
    }
  }

  /** So (i, v) is a call exactly when compute(i) succeeds with v, and the calls are in
      order of i. */
  lemma {:induction false} CallsAre<V, E>(job: Job<V, E>, n: nat)
    ensures forall i: nat, v: V :: (i, v) in job.Calls(n) <==> i < n && job.compute(i) == Ok(v)
    ensures forall b :: 0 <= b < |job.Calls(n)| ==> job.Calls(n)[b].0 < n
    ensures forall a, b :: 0 <= a < b < |job.Calls(n)| ==> job.Calls(n)[a].0 < job.Calls(n)[b].0
  {
    if n > 0 { CallsAre(job, n - 1); }
  }

  /** sent: iterations submitted in full; half: compute(sent) is submitted and
      comm(sent) is not yet. ready: the futures. calls: comm's calls so far. */
  datatype Overlap<+V, +E> = Overlap(
    compute: State<nat, E>,
    comm: State<nat, E>,
    ready: seq<Option<Result<V, E>>>,
    sent: nat,
    half: bool,
    main: MainAt<E>,
    calls: seq<(nat, V)>)

  /** A stream between runs: nothing queued, held, failed or unclaimed. */
  ghost predicate Quiet<E>(x: State<nat, E>) {
    && Inv(x) && x.queue == [] && Held(x) == [] && x.failure == None && x.recent == []
    && !x.stop && |x.callers| == 1 && (x.callers[0].Away? || x.callers[0].Back?)
  }

  function Begin<V, E>(compute: State<nat, E>, comm: State<nat, E>): Overlap<V, E> {
    Overlap(compute, comm, [], 0, false, Submitting, [])
  }

  ghost predicate Shaped<V, E>(s: Overlap<V, E>) {
    |s.compute.callers| == |s.comm.callers| == 1
  }

  /** The thread a notify wakes: the streams of a run never leave a choice. */
  function PickOf<E>(x: State<nat, E>): Pick
    requires |x.callers| == 1
    ensures MayPick(x, PickOf(x))
  {
    if x.worker.Parked? then TheWorker else if x.callers[0].Blocked? then Caller(0) else
      assert !SomeoneBlocked(x); Nobody
  }

  /** What the worker of x does next; `end` is how its running task ends. */
  function WorkerEvent<E>(x: State<nat, E>, end: Option<E>): (ev: Event<nat, E>)
    requires WorkerCan(x)
    ensures Can(x, ev)
  {
    match x.worker
    case Checking => WorkerCheck
    case Running(_) => TaskEnds(end)
    case Raised(_, _) => RecordFailure
    case Finishing(_, _) => PublishDone
  }

  /** Tasks of x that have run to their end. */
  function Ended<E>(x: State<nat, E>): nat {
    |x.recent| + if x.worker.Raised? || x.worker.Finishing? then 1 else 0
  }

  predicate CanStep<V, E>(s: Overlap<V, E>, th: Thread)
    requires |s.compute.callers| == |s.comm.callers| == 1
  {
    match th
    case Main =>
      (match s.main
       case Submitting => true
       case WaitCompute => s.compute.callers[0].Waking?
       case WaitComm(_) => s.comm.callers[0].Waking?
       case Done(_) => false)
    case ComputeWorker => WorkerCan(s.compute)
    case CommWorker =>
      WorkerCan(s.comm) && (s.comm.worker.Running? ==> s.comm.worker.t < |s.ready| && s.ready[s.comm.worker.t].Some?)
  }

  function MainStep<V, E>(job: Job<V, E>, s: Overlap<V, E>): (r: Overlap<V, E>)
    requires |s.compute.callers| == |s.comm.callers| == 1 && CanStep(s, Main)
    ensures |r.compute.callers| == |r.comm.callers| == 1
  {
    match s.main
    case Submitting =>
      if s.half then
        s.(comm := Apply(s.comm, Submit(s.sent, PickOf(s.comm))), sent := s.sent + 1, half := false)
      else if s.sent < job.iters then
        s.(compute := Apply(s.compute, Submit(s.sent, PickOf(s.compute))), ready := s.ready + [None], half := true)
      else
        s.(compute := s.compute.(callers := [Waking]), main := WaitCompute)
    case WaitCompute =>
      var x := Apply(s.compute, CallerCheck(0));
      if x.callers[0].Back? then
        s.(compute := x, comm := s.comm.(callers := [Waking]), main := WaitComm(x.callers[0].raised))
      else s.(compute := x)
    case WaitComm(first) =>
      var x := Apply(s.comm, CallerCheck(0));
      if x.callers[0].Back? then
        s.(comm := x, main := Done(if first.Some? then first else x.callers[0].raised))
      else s.(comm := x)
  }

  function ComputeStep<V, E>(job: Job<V, E>, s: Overlap<V, E>): (r: Overlap<V, E>)
    requires |s.compute.callers| == |s.comm.callers| == 1 && CanStep(s, ComputeWorker)
    ensures |r.compute.callers| == |r.comm.callers| == 1
  {
    var x := s.compute;
    if x.worker.Running? then
      var t := x.worker.t;
      s.(compute := Apply(x, TaskEnds(job.ComputeEnd(t))),
         ready := if t < |s.ready| then s.ready[t := Some(job.compute(t))] else s.ready)
    else s.(compute := Apply(x, WorkerEvent(x, None)))
  }

  function CommStep<V, E>(job: Job<V, E>, s: Overlap<V, E>): (r: Overlap<V, E>)
    requires |s.compute.callers| == |s.comm.callers| == 1 && CanStep(s, CommWorker)
    ensures |r.compute.callers| == |r.comm.callers| == 1
  {
    var x := s.comm;
    if x.worker.Running? then
      match s.ready[x.worker.t].value
      case Ok(v) =>
        s.(comm := Apply(x, TaskEnds(job.comm(x.worker.t, v))), calls := s.calls + [(x.worker.t, v)])
      case Err(e) =>
        s.(comm := Apply(x, TaskEnds(Some(e))))
    else s.(comm := Apply(x, WorkerEvent(x, None)))
  }

  function Step<V, E>(job: Job<V, E>, s: Overlap<V, E>, th: Thread): (r: Overlap<V, E>)
    requires |s.compute.callers| == |s.comm.callers| == 1
    ensures |r.compute.callers| == |r.comm.callers| == 1
  {
    if !CanStep(s, th) then s
    else match th
      case Main => MainStep(job, s)
      case ComputeWorker => ComputeStep(job, s)
      case CommWorker => CommStep(job, s)
  }

  // ---- One stream carrying tasks 0, 1, ..., n - 1 -----------------------------------

  /** The completed, the held and the queued task numbers, in order, are 0..n-1. */
  ghost predicate Window<E>(x: State<nat, E>, n: nat) {
    && (forall i :: 0 <= i < |x.recent| ==> x.recent[i].0 == i)
    && (Held(x) != [] ==> Held(x)[0] == |x.recent|)
    && (forall i :: 0 <= i < |x.queue| ==> x.queue[i] == |x.recent| + |Held(x)| + i)
    && |x.recent| + |Held(x)| + |x.queue| == n
  }

  /** Each ended task ended as `end` says. */
  ghost predicate Outcomes<E>(x: State<nat, E>, end: nat -> Option<E>) {
    && (forall i :: 0 <= i < |x.recent| ==> x.recent[i].1 == end(i))
    && (x.worker.Raised? ==> end(|x.recent|) == Some(x.worker.e))
    && (x.worker.Finishing? ==> end(|x.recent|) == x.worker.outcome)
  }

  ghost predicate Carries<E>(x: State<nat, E>, n: nat, end: nat -> Option<E>) {
    Inv(x) && !x.stop && |x.callers| == 1 && Window(x, n) && Outcomes(x, end)
  }

  lemma CarriesSubmit<E>(x: State<nat, E>, n: nat, end: nat -> Option<E>, pick: Pick)
    requires Carries(x, n, end) && MayPick(x, pick)
    ensures Carries(Apply(x, Submit(n, pick)), n + 1, end) && Ended(Apply(x, Submit(n, pick))) == Ended(x)
    ensures x.callers[0].Blocked? || Apply(x, Submit(n, pick)).callers == x.callers
  {
    StepInv(x, Submit(n, pick));
    hide Inv;
    var x2 := Apply(x, Submit(n, pick));
    assert Held(x2) == Held(x) && x2.recent == x.recent;
  }

  lemma CarriesTake<E>(x: State<nat, E>, n: nat, end: nat -> Option<E>)
    requires Carries(x, n, end) && x.worker.Checking?
    ensures Carries(Apply(x, WorkerCheck), n, end) && Ended(Apply(x, WorkerCheck)) == Ended(x)
    ensures Apply(x, WorkerCheck).callers == x.callers
  {
    StepInv(x, WorkerCheck);
    hide Inv;
    if x.queue != [] { assert x.queue[0] == |x.recent|; }
  }

  lemma CarriesEnd<E>(x: State<nat, E>, n: nat, end: nat -> Option<E>)
    requires Carries(x, n, end) && x.worker.Running?
    ensures x.worker.t == Ended(x) < n
    ensures var x2 := Apply(x, TaskEnds(end(x.worker.t)));
      Carries(x2, n, end) && Ended(x2) == Ended(x) + 1 && x2.callers == x.callers
  {
    assert Held(x)[0] == |x.recent|;
    StepInv(x, TaskEnds(end(x.worker.t)));
    hide Inv;
  }

  lemma CarriesRecord<E>(x: State<nat, E>, n: nat, end: nat -> Option<E>)
    requires Carries(x, n, end) && x.worker.Raised?
    ensures var x2 := Apply(x, RecordFailure);
      Carries(x2, n, end) && Ended(x2) == Ended(x) && x2.callers == x.callers
  {
    StepInv(x, RecordFailure);
    hide Inv;
  }

  lemma CarriesPublish<E>(x: State<nat, E>, n: nat, end: nat -> Option<E>)
    requires Carries(x, n, end) && x.worker.Finishing?
    ensures var x2 := Apply(x, PublishDone);
      && Carries(x2, n, end) && Ended(x2) == Ended(x)
      && (if x.callers[0].Blocked? then x2.callers[0].Blocked? || x2.callers[0].Waking? else x2.callers == x.callers)
  {
    PublishParts(x);
    assert Held(x)[0] == |x.recent|;
    StepInv(x, PublishDone);
    hide Inv, Apply;
  }

  lemma PublishParts<E>(x: State<nat, E>)
    requires x.worker.Finishing? && |x.callers| == 1
    ensures var x2 := Apply(x, PublishDone);
      && x2.queue == x.queue && x2.worker == Checking && x2.stop == x.stop && |x2.callers| == 1
      && x2.recent == x.recent + [(x.worker.t, x.worker.outcome)]
      && (if x.callers[0].Blocked? then x2.callers[0].Blocked? || x2.callers[0].Waking? else x2.callers == x.callers)
  {
  }

  /** A wait on the stream: it goes through when all n tasks are done, raising the
      first failure, and leaves the stream as quiet as it was before the run. */
  lemma CarriesWait<E>(x: State<nat, E>, n: nat, end: nat -> Option<E>)
    requires Carries(x, n, end) && x.callers[0].Waking?
    ensures var x2 := Apply(x, CallerCheck(0));
      if x2.callers[0].Back? then
        && Ended(x) == n && x2.callers[0].raised == FirstError(Ends(end, n)) && Quiet(x2)
      else Carries(x2, n, end) && x2.callers == [Blocked] && Ended(x2) == Ended(x)
  {
    StepInv(x, CallerCheck(0));
    WaitReturns(x, 0);
    hide Inv, FirstError;
    var x2 := Apply(x, CallerCheck(0));
    if x2.callers[0].Back? {
      assert x.recent == Ends(end, n);
    }
  }

  function Ends<E>(end: nat -> Option<E>, n: nat): (r: seq<(nat, Option<E>)>)
    ensures |r| == n && forall i :: 0 <= i < n ==> r[i] == (i, end(i))
  {
    seq(n, i requires 0 <= i => (i, end(i)))
  }

  /** What run raises: the first compute failure, else the first comm failure. */
  function Verdict<V, E>(job: Job<V, E>): Option<E> {
    var first := FirstError(Ends(job.ComputeEnds(), job.iters));
    if first.Some? then first else FirstError(Ends(job.CommEnds(), job.iters))
  }

  /** Compute tasks that have run to their end. */
  function ComputeEnded<V, E>(s: Overlap<V, E>): nat {
    if s.main.Submitting? || s.main.WaitCompute? then Ended(s.compute) else |s.ready|
  }

  predicate Resting<E>(c: CallerAt<E>) { c.Away? || c.Back? }

  predicate Waiting<E>(c: CallerAt<E>) { c.Waking? || c.Blocked? }

  ghost predicate MainOk<V, E>(job: Job<V, E>, s: Overlap<V, E>)
    requires |s.compute.callers| == |s.comm.callers| == 1
  {
    match s.main
    case Submitting => Resting(s.compute.callers[0]) && Resting(s.comm.callers[0])
    case WaitCompute => Waiting(s.compute.callers[0]) && Resting(s.comm.callers[0])
    case WaitComm(first) =>
      Quiet(s.compute) && Waiting(s.comm.callers[0]) && first == FirstError(Ends(job.ComputeEnds(), job.iters))
    case Done(raised) => Quiet(s.compute) && Quiet(s.comm) && raised == Verdict(job)
  }

  ghost predicate OverlapInv<V, E>(job: Job<V, E>, s: Overlap<V, E>) {
    && |s.compute.callers| == |s.comm.callers| == 1
    && |s.ready| == s.sent + (if s.half then 1 else 0) <= job.iters
    && (!s.main.Submitting? ==> s.sent == job.iters)
    && (s.main.Submitting? || s.main.WaitCompute? ==> Carries(s.compute, |s.ready|, job.ComputeEnds()))
    && (!s.main.Done? ==> Carries(s.comm, s.sent, job.CommEnds()))
    && MainOk(job, s)
    && ComputeEnded(s) <= |s.ready|
    && (forall i :: 0 <= i < |s.ready| ==> s.ready[i] == if i < ComputeEnded(s) then Some(job.compute(i)) else None)
    && (if s.main.Done? then s.calls == job.Calls(job.iters)
        else Ended(s.comm) <= ComputeEnded(s) && s.calls == job.Calls(Ended(s.comm)))
  }

  lemma QuietCarries<E>(x: State<nat, E>, end: nat -> Option<E>)
    requires Quiet(x)
    ensures Carries(x, 0, end) && Ended(x) == 0
  {
  }

  lemma BeginInv<V, E>(job: Job<V, E>, compute: State<nat, E>, comm: State<nat, E>)
    requires Quiet(compute) && Quiet(comm)
    ensures OverlapInv(job, Begin(compute, comm))
  {
    QuietCarries(compute, job.ComputeEnds());
    QuietCarries(comm, job.CommEnds());
  }

  lemma QuietWorker<E>(x: State<nat, E>)
    requires Quiet(x) && WorkerCan(x)
    ensures x.worker.Checking? && Quiet(Apply(x, WorkerCheck))
  {
    StepInv(x, WorkerCheck);
    hide Inv;
  }

  lemma MainStepInv<V, E>(job: Job<V, E>, s: Overlap<V, E>)
    requires OverlapInv(job, s) && CanStep(s, Main)
    ensures OverlapInv(job, MainStep(job, s))
  {
    hide Inv, Window, Outcomes, FirstError, Apply;
    var ce, me := job.ComputeEnds(), job.CommEnds();
    match s.main
    case Submitting =>
      if s.half {
        CarriesSubmit(s.comm, s.sent, me, PickOf(s.comm));
      } else if s.sent < job.iters {
        CarriesSubmit(s.compute, |s.ready|, ce, PickOf(s.compute));
      } else {
        CarriesCall(s.compute, |s.ready|, ce);
      }
    case WaitCompute =>
      CarriesWait(s.compute, |s.ready|, ce);
      CarriesCall(s.comm, s.sent, me);
    case WaitComm(_) =>
      CarriesWait(s.comm, s.sent, me);
  }

  lemma CarriesCall<E>(x: State<nat, E>, n: nat, end: nat -> Option<E>)
    requires Carries(x, n, end) && Resting(x.callers[0])
    ensures Carries(x.(callers := [Waking]), n, end) && Ended(x.(callers := [Waking])) == Ended(x)
  {
    assert x.(callers := [Waking]) == Apply(x, CallWait(0));
    StepInv(x, CallWait(0));
    hide Inv;
  }

  lemma ComputeStepInv<V, E>(job: Job<V, E>, s: Overlap<V, E>)
    requires OverlapInv(job, s) && CanStep(s, ComputeWorker)
    ensures OverlapInv(job, ComputeStep(job, s))
  {
    hide Inv, Window, Outcomes, FirstError, Apply;
    var x, end := s.compute, job.ComputeEnds();
    if !s.main.Submitting? && !s.main.WaitCompute? {
      QuietWorker(x);
      QuietCallers(x);
    } else {
      match x.worker
      case Checking => CarriesTake(x, |s.ready|, end);
      case Running(_) => CarriesEnd(x, |s.ready|, end);
      case Raised(_, _) => CarriesRecord(x, |s.ready|, end);
      case Finishing(_, _) => CarriesPublish(x, |s.ready|, end);
    }
  }

  lemma QuietCallers<E>(x: State<nat, E>)
    requires Quiet(x) && WorkerCan(x)
    ensures Apply(x, WorkerEvent(x, None)) == Apply(x, WorkerCheck)
  {
  }

  lemma CommStepInv<V, E>(job: Job<V, E>, s: Overlap<V, E>)
    requires OverlapInv(job, s) && CanStep(s, CommWorker)
    ensures OverlapInv(job, CommStep(job, s))
  {
    hide Inv, Window, Outcomes, FirstError, Apply, Verdict, Ends;
    var x, end := s.comm, job.CommEnds();
    if s.main.Done? {
      QuietWorker(x);
      QuietCallers(x);
    } else {
      match x.worker
      case Checking => CarriesTake(x, s.sent, end);
      case Running(_) => CarriesEnd(x, s.sent, end);
      case Raised(_, _) => CarriesRecord(x, s.sent, end);
      case Finishing(_, _) => CarriesPublish(x, s.sent, end);
    }
  }

  lemma OverlapStepInv<V, E>(job: Job<V, E>, s: Overlap<V, E>, th: Thread)
    requires OverlapInv(job, s)
    ensures OverlapInv(job, Step(job, s, th))
  {
    hide OverlapInv, MainStep, ComputeStep, CommStep, CanStep;
    assert |s.compute.callers| == |s.comm.callers| == 1 by { OverlapShape(job, s); }
    if CanStep(s, th) {
      match th
      case Main => MainStepInv(job, s);
      case ComputeWorker => ComputeStepInv(job, s);
      case CommWorker => CommStepInv(job, s);
    }
  }

  lemma OverlapShape<V, E>(job: Job<V, E>, s: Overlap<V, E>)
    requires OverlapInv(job, s)
    ensures |s.compute.callers| == |s.comm.callers| == 1
  {
  }

  /** The state after a schedule: which thread takes each step. */
  function Exec<V, E>(job: Job<V, E>, s: Overlap<V, E>, sched: seq<Thread>): (r: Overlap<V, E>)
    requires |s.compute.callers| == |s.comm.callers| == 1
    ensures |r.compute.callers| == |r.comm.callers| == 1
  {
    if sched == [] then s else Step(job, Exec(job, s, sched[..|sched| - 1]), sched[|sched| - 1])
  }

  lemma {:induction false} ExecInv<V, E>(job: Job<V, E>, s: Overlap<V, E>, sched: seq<Thread>)
    requires OverlapInv(job, s) && |s.compute.callers| == |s.comm.callers| == 1
    ensures OverlapInv(job, Exec(job, s, sched))
  {
    hide OverlapInv, Step;
    if sched != [] {
      ExecInv(job, s, sched[..|sched| - 1]);
      OverlapStepInv(job, Exec(job, s, sched[..|sched| - 1]), sched[|sched| - 1]);
    }
  }

  /** In every interleaving: comm has been called exactly for the successful
      computes among the comm tasks ended so far, in index order, each with its
      compute's value, and each of those computes had ended; and once run is done
      it has raised the verdict and left both streams quiet. */
  lemma RunOutcome<V, E>(job: Job<V, E>, compute: State<nat, E>, comm: State<nat, E>, sched: seq<Thread>)
    requires Quiet(compute) && Quiet(comm)
    ensures var s := Exec(job, Begin(compute, comm), sched);
      && (exists k :: 0 <= k <= ComputeEnded(s) <= job.iters && s.calls == job.Calls(k))
      && (s.main.Done? ==> s.main.raised == Verdict(job) && Quiet(s.compute) && Quiet(s.comm)
                           && s.calls == job.Calls(job.iters))
  {
    BeginInv(job, compute, comm);
    ExecInv(job, Begin(compute, comm), sched);
    hide Exec, Quiet, Carries, Verdict;
    var s := Exec(job, Begin(compute, comm), sched);
    var k := if s.main.Done? then job.iters else Ended(s.comm);
    assert 0 <= k <= ComputeEnded(s) && s.calls == job.Calls(k);
  }

  /** run returns normally exactly when no compute raised and no comm call raised. */
  lemma NormalIff<V, E>(job: Job<V, E>)
    ensures Verdict(job).None? <==>
      forall i: nat :: i < job.iters ==> job.compute(i).Ok? && job.comm(i, job.compute(i).value).None?
  {
    hide FirstError;
    var a, b := Ends(job.ComputeEnds(), job.iters), Ends(job.CommEnds(), job.iters);
    FirstErrorIs(a);
    FirstErrorIs(b);
    if Verdict(job).None? {
      forall i: nat | i < job.iters ensures job.compute(i).Ok? && job.comm(i, job.compute(i).value).None? {
        assert a[i].1.None? && b[i].1.None?;
      }
    }
  }

  ghost predicate FirstComputeFailure<V, E>(job: Job<V, E>, i: nat, e: E) {
    job.compute(i) == Err(e) && forall j: nat :: j < i ==> job.compute(j).Ok?
  }

  ghost predicate FirstCommFailure<V, E>(job: Job<V, E>, i: nat, e: E) {
    && job.compute(i).Ok? && job.comm(i, job.compute(i).value) == Some(e)
    && forall j: nat :: j < i ==> job.CommEnd(j).None?
  }

  /** A compute failure is raised before any comm failure, whichever came first
      in time; with none, the first comm failure is raised. */
  lemma WhichFailure<V, E>(job: Job<V, E>)
    requires Verdict(job).Some?
    ensures if exists j: nat :: j < job.iters && job.compute(j).Err?
      then exists i: nat :: i < job.iters && FirstComputeFailure(job, i, Verdict(job).value)
      else exists i: nat :: i < job.iters && FirstCommFailure(job, i, Verdict(job).value)
  {
    hide FirstError;
    var a, b := Ends(job.ComputeEnds(), job.iters), Ends(job.CommEnds(), job.iters);
    FirstErrorIs(a);
    FirstErrorIs(b);
    if j: nat :| j < job.iters && job.compute(j).Err? {
      assert a[j].1.Some?;
      var i :| 0 <= i < |a| && FirstAt(a, i);
      forall q: nat | q < i ensures job.compute(q).Ok? {
        assert a[q].1.None?;
      }
      assert FirstComputeFailure(job, i, Verdict(job).value);
    } else {
      assert forall q :: 0 <= q < |a| ==> a[q].1.None?;
      var i :| 0 <= i < |b| && FirstAt(b, i);
      forall q: nat | q < i ensures job.CommEnd(q).None? {
        assert b[q].1.None?;
      }
      assert FirstCommFailure(job, i, Verdict(job).value);
    }
  }

  /** No deadlock: until run is done, some thread can step. */
  lemma NeverStuck<V, E>(job: Job<V, E>, s: Overlap<V, E>) returns (th: Thread)
    requires OverlapInv(job, s) && !s.main.Done?
    ensures |s.compute.callers| == |s.comm.callers| == 1 && CanStep(s, th)
  {
    hide FirstError, Window, Outcomes;
    th := Main;
    if s.main.WaitCompute? && !s.compute.callers[0].Waking? {
      WorkerMoves(s.compute);
      th := ComputeWorker;
    } else if s.main.WaitComm? && !s.comm.callers[0].Waking? {
      WorkerMoves(s.comm);
      th := CommWorker;
      if s.comm.worker.Running? { CarriesEnd(s.comm, s.sent, job.CommEnds()); }
    }
  }

  // ---- Termination, and the executor -------------------------------------------------

  /** Steps a stream may still take without a further submit. */
  ghost function StreamWork<E>(x: State<nat, E>): nat {
    6 * |x.queue|
    + (match x.worker
       case Running(_) => 5
       case Raised(_, _) => 4
       case Finishing(_, _) => 3
       case Checking => 1
       case _ => 0)
    + if |x.callers| == 1 && x.callers[0].Waking? then 1 else 0
  }

  ghost function Work<V, E>(job: Job<V, E>, s: Overlap<V, E>): nat
    requires OverlapInv(job, s)
  {
    StreamWork(s.compute) + StreamWork(s.comm) + match s.main
    case Submitting => 16 * (job.iters - s.sent) - (if s.half then 8 else 0) + 9
    case WaitCompute => 6
    case WaitComm(_) => 3
    case Done(_) => 0
  }

  lemma WorkerWork<E>(x: State<nat, E>, o: Option<E>)
    requires Inv(x) && |x.callers| == 1 && WorkerCan(x) && !x.stop
    ensures StreamWork(Apply(x, WorkerEvent(x, o))) < StreamWork(x)
  {
    hide FirstError;
  }

  lemma SubmitWork<E>(x: State<nat, E>, t: nat)
    requires |x.callers| == 1
    ensures StreamWork(Apply(x, Submit(t, PickOf(x)))) <= StreamWork(x) + 7
  {
  }

  lemma CallWork<E>(x: State<nat, E>)
    ensures StreamWork(x.(callers := [Waking])) <= StreamWork(x) + 1
  {
  }

  lemma StepWorks<V, E>(job: Job<V, E>, s: Overlap<V, E>, th: Thread)
    requires OverlapInv(job, s) && |s.compute.callers| == |s.comm.callers| == 1 && CanStep(s, th)
    requires OverlapInv(job, Step(job, s, th))
    ensures Work(job, Step(job, s, th)) < Work(job, s)
  {
    hide Verdict, Ends, OverlapInv, Apply, StreamWork, Inv;
    match th
    case Main => MainWorks(job, s);
    case ComputeWorker => ComputeWorks(job, s);
    case CommWorker => CommWorks(job, s);
  }

  lemma ComputeWorks<V, E>(job: Job<V, E>, s: Overlap<V, E>)
    requires OverlapInv(job, s) && |s.compute.callers| == 1 && CanStep(s, ComputeWorker)
    requires OverlapInv(job, Step(job, s, ComputeWorker))
    ensures Work(job, Step(job, s, ComputeWorker)) < Work(job, s)
  {
    ComputeRuns(job, s);
    hide OverlapInv, Apply, StreamWork, Inv;
    WorkerWork(s.compute, if s.compute.worker.Running? then job.ComputeEnd(s.compute.worker.t) else None);
  }

  lemma CommWorks<V, E>(job: Job<V, E>, s: Overlap<V, E>)
    requires OverlapInv(job, s) && |s.comm.callers| == 1 && CanStep(s, CommWorker)
    requires OverlapInv(job, Step(job, s, CommWorker))
    ensures Work(job, Step(job, s, CommWorker)) < Work(job, s)
  {
    CommRuns(job, s);
    hide OverlapInv, Apply, StreamWork, Inv;
    var x := s.comm;
    WorkerWork(x, if !x.worker.Running? then None else
      match s.ready[x.worker.t].value case Ok(v) => job.comm(x.worker.t, v) case Err(e) => Some(e));
  }

  lemma ComputeRuns<V, E>(job: Job<V, E>, s: Overlap<V, E>)
    requires OverlapInv(job, s)
    ensures Inv(s.compute) && !s.compute.stop
  {
  }

  lemma CommRuns<V, E>(job: Job<V, E>, s: Overlap<V, E>)
    requires OverlapInv(job, s)
    ensures Inv(s.comm) && !s.comm.stop
  {
  }

  lemma MainWorks<V, E>(job: Job<V, E>, s: Overlap<V, E>)
    requires OverlapInv(job, s) && |s.compute.callers| == |s.comm.callers| == 1 && CanStep(s, Main)
    requires OverlapInv(job, MainStep(job, s))
    ensures Work(job, MainStep(job, s)) < Work(job, s)
  {
    hide Inv, Window, Outcomes, FirstError, Quiet, Ends, Carries, Apply, StreamWork;
    match s.main
    case Submitting =>
      SubmitWork(s.comm, s.sent);
      SubmitWork(s.compute, s.sent);
      CallWork(s.compute);
    case WaitCompute =>
      CheckWork(s.compute);
      CallWork(s.comm);
    case WaitComm(_) =>
      CheckWork(s.comm);
  }

  lemma CheckWork<E>(x: State<nat, E>)
    requires |x.callers| == 1 && x.callers[0].Waking?
    ensures StreamWork(Apply(x, CallerCheck(0))) < StreamWork(x)
  {
  }

  class Executor<E> {
    var compute: State<nat, E>
    var comm: State<nat, E>

    constructor ()
      ensures Quiet(compute) && Quiet(comm)
    {
      compute, comm := Fresh(1), Fresh(1);
    }

    /** run, with the three threads stepping in an arbitrary order. */
    method Run<V>(job: Job<V, E>) returns (raised: Option<E>, calls: seq<(nat, V)>)
      requires Quiet(compute) && Quiet(comm)
      modifies this
      ensures raised == Verdict(job) && calls == job.Calls(job.iters)
      ensures Quiet(compute) && Quiet(comm)
    {
      hide OverlapInv, Step, CanStep, Work, Quiet, Verdict;
      var s := Begin(compute, comm);
      BeginInv(job, compute, comm);
      OverlapShape(job, s);
      while !s.main.Done?
        invariant OverlapInv(job, s) && |s.compute.callers| == |s.comm.callers| == 1
        decreases Work(job, s)
      {
        var th := Pick(job, s);
        OverlapStepInv(job, s, th);
        StepWorks(job, s, th);
        s := Step(job, s, th);
      }
      DoneOutcome(job, s);
      compute, comm, raised, calls := s.compute, s.comm, s.main.raised, s.calls;
    }

    /** Any thread that can step. */
    method Pick<V>(job: Job<V, E>, s: Overlap<V, E>) returns (th: Thread)
      requires OverlapInv(job, s) && |s.compute.callers| == |s.comm.callers| == 1 && !s.main.Done?
      ensures CanStep(s, th)
    {
      hide OverlapInv, CanStep;
      ghost var some := NeverStuck(job, s);
      th :| CanStep(s, th);
    }
  }

  lemma DoneOutcome<V, E>(job: Job<V, E>, s: Overlap<V, E>)
    requires OverlapInv(job, s) && s.main.Done?
    ensures s.main.raised == Verdict(job) && Quiet(s.compute) && Quiet(s.comm) && s.calls == job.Calls(job.iters)
  {
  }
}
