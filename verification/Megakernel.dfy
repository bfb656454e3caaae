/** The persistent spine megakernel: P workers, 7 barriers a layer, one counter
    that is never reset from launch to launch. */
module Megakernel {
  import opened CounterBarrier
  import opened GridCalls
  import opened GridMachine
  import opened GridStride
  import opened IntArith
  import opened SpineLayer
  import opened SpineTasks
  import opened Tasks

  const BARRIERS_PER_LAYER := 7

  /** The calls between barrier k - 1 and barrier k; the last phase copies the
      live buffer out and is not followed by a barrier. */
  function KernelCalls<V>(b: Bodies<V>, layers: nat, k: nat): seq<seq<Task<Cell, V>>> {
    if k < 7 * layers then Calls(b, k / 7, k % 7) else [Copies(b, layers)]
  }

  /** Every phase of a launch is race-free and every task has a worker. */
  lemma CallsGood<V>(b: Bodies<V>, layers: nat, p: nat, k: nat)
    requires p > 0 && k <= 7 * layers
    ensures RaceFree(Flat(KernelCalls(b, layers, k)))
    ensures forall j :: 0 <= j < |Deal(KernelCalls(b, layers, k), p)| ==> Deal(KernelCalls(b, layers, k), p)[j] < p
  {
    hide RaceFree, Deal, Calls, Copies;
    DealWorkers(KernelCalls(b, layers, k), p);
    if k < 7 * layers {
      PhaseRaceFree(b, k / 7, k % 7);
    } else {
      CopyRaceFree(b, layers);
      FlatOne(Copies(b, layers));
    }
  }

  function Kernel<V>(b: Bodies<V>, layers: nat, p: nat): (g: Program<Cell, V>)
    requires p > 0
    ensures g.p == p && |g.phases| == |g.owner| == 7 * layers + 1 && g.Good()
    ensures forall k :: 0 <= k <= 7 * layers ==> g.phases[k] == Flat(KernelCalls(b, layers, k))
    ensures forall k :: 0 <= k <= 7 * layers ==> g.owner[k] == Deal(KernelCalls(b, layers, k), p)
  {
    var g := Program(p, seq(7 * layers + 1, k requires 0 <= k => Flat(KernelCalls(b, layers, k))),
                     seq(7 * layers + 1, k requires 0 <= k => Deal(KernelCalls(b, layers, k), p)));
    assert g.Good() by {
      hide RaceFree, Deal, Flat, KernelCalls;
      forall k | 0 <= k < |g.phases|
        ensures RaceFree(g.phases[k]) && forall j :: 0 <= j < |g.owner[k]| ==> g.owner[k][j] < p
      {
        CallsGood(b, layers, p, k);
      }
    }
    g
  }

  lemma FlatOne<T>(a: seq<T>)
    ensures Flat([a]) == a
  {
    assert [a][..0] == [];
    assert Flat([a]) == Flat<T>([]) + a;
  }

  /** The work loop `task = worker; while task < n; task += P` of every call, in
      turn, is the share of the phase the machine runs for worker w. */
  method WorkerTasks<V>(b: Bodies<V>, layers: nat, p: nat, k: nat, w: nat) returns (visited: seq<nat>)
    requires w < p && k <= 7 * layers
    ensures visited == Kernel(b, layers, p).Share(k, w)
  {
    visited := Visit(KernelCalls(b, layers, k), p, w);
  }

  /** The spin target the kernel passes at phase `phase` of layer l is the count
      at which every worker has arrived at that barrier. */
  lemma BarrierTarget(bar: Barrier, base: nat, p: nat, w: nat, l: nat, phase: nat)
    requires CounterBarrier.Inv(bar, base, p) && w < p && bar.waiting[w] && phase < 7
    requires bar.left[w] == BARRIERS_PER_LAYER * l + phase
    ensures var bi := (BARRIERS_PER_LAYER * l + 1) * p + base;
      && (bar.counter >= bi + phase * p <==> Released(bar, base, p, w))
      && (bar.counter >= bi + phase * p <==> forall v :: 0 <= v < p ==> bar.Arrived(v) > 7 * l + phase)
  {
    MulSum(7 * l + 1, phase, p);
    ReleasedIff(bar, base, p, w);
  }

  // ---- The sequential run, layer by layer -----------------------------------------

  /** n layers in a row, with no workspace. */
  function Layers<V>(b: Bodies<V>, n: nat, x: Spine<V>): (r: Spine<V>)
    requires |x.streams| == HC * C
    ensures |r.streams| == HC * C
  {
    if n == 0 then x else LayerStep(b, n - 1, Layers(b, n - 1, x))
  }

  /** Memory after the first k phases of a sequential launch. */
  function After<V>(b: Bodies<V>, layers: nat, p: nat, m: Memory<Cell, V>, k: nat): Memory<Cell, V>
    requires p > 0 && k <= 7 * layers + 1
  {
    RunPhases(m, Kernel(b, layers, p).phases, k)
  }

  lemma AfterNone<V>(b: Bodies<V>, layers: nat, p: nat, m: Memory<Cell, V>)
    requires p > 0
    ensures After(b, layers, p, m, 0) == m
  {
  }

  lemma AfterOneMore<V>(b: Bodies<V>, layers: nat, p: nat, m: Memory<Cell, V>, k: nat)
    requires p > 0 && k <= 7 * layers
    ensures var tasks := Flat(KernelCalls(b, layers, k));
      After(b, layers, p, m, k + 1) == RunTasks(After(b, layers, p, m, k), tasks, |tasks|)
  {
    hide RunTasks, KernelCalls, Flat, Kernel;
  }

  lemma {:induction false} LayerPhases<V>(b: Bodies<V>, layers: nat, p: nat, m: Memory<Cell, V>, l: nat, n: nat)
    requires p > 0 && l < layers && n <= 7
    ensures 7 * l + n <= 7 * layers
    ensures After(b, layers, p, m, 7 * l + n) == AfterPhases(b, l, n, After(b, layers, p, m, 7 * l))
  {
    hide Calls, RunTasks, Kernel, Flat, After;
    if n > 0 {
      LayerPhases(b, layers, p, m, l, n - 1);
      var k := 7 * l + n - 1;
      assert k / 7 == l && k % 7 == n - 1;
      AfterOneMore(b, layers, p, m, k);
    }
  }

  /** After l layers the streams are in buffer l mod 2, and the previous layer's
      are still in the other one. */
  lemma {:induction false} LayersRun<V>(b: Bodies<V>, layers: nat, p: nat, m: Memory<Cell, V>, x: Spine<V>, l: nat)
    requires p > 0 && l <= layers && Holds(m, 0, x) && |x.streams| == HC * C
    ensures Holds(After(b, layers, p, m, 7 * l), l, Layers(b, l, x))
    ensures l > 0 ==> Region(After(b, layers, p, m, 7 * l), Buffer(l - 1), HC * C) == Layers(b, l - 1, x).streams
  {
    hide AfterPhases, Holds, LayerStep, Buffer, Region, After;
    if l == 0 {
      AfterNone(b, layers, p, m);
    } else {
      LayersRun(b, layers, p, m, x, l - 1);
      LayerPhases(b, layers, p, m, l - 1, 7);
      LayerComputed(b, l - 1, After(b, layers, p, m, 7 * (l - 1)), Layers(b, l - 1, x));
    }
  }

  lemma CopyCell<V>(b: Bodies<V>, layers: nat, m: Memory<Cell, V>, i: nat)
    requires i < HC * C
    ensures i / 1024 < |Copies(b, layers)| && i % 1024 < 1024
    ensures var t := Copies(b, layers)[i / 1024];
      |t.outs| == 1024 && t.outs[i % 1024] == Live(i) && t.Out(m, i % 1024) == m(Ws(Buffer(layers) + i))
  {
    hide Buffer;
    DivMod(i, 1024);
    var t := Copy(b, layers, i / 1024);
    assert t.Loads(m)[i % 1024] == m(Ws(Buffer(layers) + i));
  }

  lemma CopiesOut<V>(b: Bodies<V>, layers: nat, m: Memory<Cell, V>)
    ensures var m2 := RunTasks(m, Copies(b, layers), |Copies(b, layers)|);
      && (forall c: Cell :: !c.Live? ==> m2(c) == m(c))
      && (forall i: nat :: i < HC * C ==> m2(Live(i)) == m(Ws(Buffer(layers) + i)))
  {
    hide Buffer, RunTasks;
    var tasks := Copies(b, layers);
    CopyRaceFree(b, layers);
    hide RaceFree;
    PhaseCells(m, tasks, |tasks|);
    var m2 := RunTasks(m, tasks, |tasks|);
    forall c: Cell | !c.Live? ensures m2(c) == m(c) {
      assert Untouched(tasks, |tasks|, c);
    }
    hide Copies;
    forall i: nat | i < HC * C ensures m2(Live(i)) == m(Ws(Buffer(layers) + i)) {
      CopyCell(b, layers, m, i);
    }
  }

  /** The values of the output cells. */
  function Shown<V>(m: Memory<Cell, V>): seq<V> {
    seq(HC * C, i requires 0 <= i => m(Live(i)))
  }

  /** What the next launch finds at its start, with no reload: the buffer layer 0
      reads is the live one only when the number of layers is even. */
  function NextStart<V>(b: Bodies<V>, layers: nat, x: Spine<V>): (r: Spine<V>)
    requires |x.streams| == HC * C
    ensures |r.streams| == HC * C
  {
    if layers % 2 == 0 then Layers(b, layers, x)
    else Spine(Layers(b, layers - 1, x).streams, Layers(b, layers, x).pools)
  }

  /** The whole launch, run sequentially. */
  lemma WholeLaunch<V>(b: Bodies<V>, layers: nat, p: nat, m: Memory<Cell, V>, x: Spine<V>)
    requires p > 0 && Holds(m, 0, x) && |x.streams| == HC * C
    ensures var m2 := After(b, layers, p, m, 7 * layers + 1);
      && Holds(m2, layers, Layers(b, layers, x))
      && Shown(m2) == Layers(b, layers, x).streams
      && Holds(m2, 0, NextStart(b, layers, x))
  {
    hide Layers, RunTasks, After, Copies, Calls, Buffer, Holds, NextStart, Shown, Region;
    var ml := After(b, layers, p, m, 7 * layers);
    LayersRun(b, layers, p, m, x, layers);
    FlatOne(Copies(b, layers));
    AfterOneMore(b, layers, p, m, 7 * layers);
    CopiesOut(b, layers, ml);
    var m2 := After(b, layers, p, m, 7 * layers + 1);
    assert m2 == RunTasks(ml, Copies(b, layers), |Copies(b, layers)|);
    HoldsKept(ml, m2, layers, Layers(b, layers, x));
    ShownIs(ml, m2, layers, Layers(b, layers, x));
    HoldsNext(b, layers, x, m2, ml);
  }

  lemma HoldsKept<V>(m: Memory<Cell, V>, m2: Memory<Cell, V>, l: nat, x: Spine<V>)
    requires Holds(m, l, x) && forall c: Cell :: !c.Live? ==> m2(c) == m(c)
    ensures Holds(m2, l, x)
  {
    hide Buffer;
    assert Region(m2, Buffer(l), HC * C) == Region(m, Buffer(l), HC * C);
  }

  lemma ShownIs<V>(m: Memory<Cell, V>, m2: Memory<Cell, V>, l: nat, x: Spine<V>)
    requires Holds(m, l, x) && forall i: nat :: i < HC * C ==> m2(Live(i)) == m(Ws(Buffer(l) + i))
    ensures Shown(m2) == x.streams
  {
    hide Buffer;
    forall i: nat | i < HC * C ensures Shown(m2)[i] == Region(m, Buffer(l), HC * C)[i] {
    }
    assert Shown(m2) == Region(m, Buffer(l), HC * C);
  }

  lemma HoldsNext<V>(b: Bodies<V>, layers: nat, x: Spine<V>, m2: Memory<Cell, V>, ml: Memory<Cell, V>)
    requires |x.streams| == HC * C && Holds(m2, layers, Layers(b, layers, x))
    requires forall c: Cell :: !c.Live? ==> m2(c) == ml(c)
    requires layers > 0 ==> Region(ml, Buffer(layers - 1), HC * C) == Layers(b, layers - 1, x).streams
    ensures Holds(m2, 0, NextStart(b, layers, x))
  {
    hide Layers;
    if layers % 2 == 0 {
      assert Buffer(layers) == Buffer(0);
    } else {
      assert Buffer(layers - 1) == Buffer(0);
      assert Region(m2, Buffer(0), HC * C) == Region(ml, Buffer(0), HC * C);
    }
  }

  /** Any interleaving of the workers' loads, stores and barrier operations that
      finishes the launch ends with the streams and pools of the plain
      layer-by-layer run, and with the counter at base + 7 * layers * P. */
  lemma LaunchRefinesLayers<V>(b: Bodies<V>, layers: nat, p: nat, base: nat, m: Memory<Cell, V>, x: Spine<V>,
                               sched: seq<nat>)
    requires p > 0 && Holds(m, 0, x) && |x.streams| == HC * C
    requires forall i :: 0 <= i < |sched| ==> sched[i] < p
    requires Finished(Kernel(b, layers, p), Exec(Kernel(b, layers, p), base, m, sched))
    ensures var s := Exec(Kernel(b, layers, p), base, m, sched);
      && Holds(s.mem, layers, Layers(b, layers, x))
      && Shown(s.mem) == Layers(b, layers, x).streams
      && s.bar.counter == base + p * (BARRIERS_PER_LAYER * layers)
  {
    hide Kernel, Layers, Holds, Shown, RunPhases, Exec, Finished, NextStart;
    var g := Kernel(b, layers, p);
    RunsAgree(g, base, m, sched);
    WholeLaunch(b, layers, p, m, x);
    SameCells(After(b, layers, p, m, 7 * layers + 1), Exec(g, base, m, sched).mem, layers, Layers(b, layers, x));
  }

  lemma SameCells<V>(m: Memory<Cell, V>, m2: Memory<Cell, V>, l: nat, x: Spine<V>)
    requires forall c :: m2(c) == m(c)
    requires Holds(m, l, x)
    ensures Holds(m2, l, x) && Shown(m2) == Shown(m)
  {
    assert Region(m2, Buffer(l), HC * C) == Region(m, Buffer(l), HC * C);
  }

  /** Every stream value is one more than the first one it was composed from. */
  function Counting(): Bodies<int> {
    Bodies((_, _, _) => 0, (_, _, _) => 0, (_, _, _) => 0, (_, _, _) => 0, (_, _, _) => 0, (_, _, _) => 0,
           (_, _, _) => 0, (_, _, _) => 0, (_, _, _, _) => 0, (_, _, _) => 0,
           (_, s: seq<int>, _) => if s == [] then 0 else s[0] + 1, 0)
  }

  function Zeros(): (x: Spine<int>)
    ensures |x.streams| == HC * C
  {
    Spine(seq(HC * C, _ => 0), _ => 0)
  }

  lemma CountingStep(l: nat, x: Spine<int>)
    requires |x.streams| == HC * C
    ensures LayerStep(Counting(), l, x).streams[0] == x.streams[0] + 1
  {
    var b := Counting();
    var pre := PreMix(b, l, x.streams);
    var rows := LayerRows(b, l, pre[..C]);
    var body := SpineLayer.Row(b.ow, l, KdaOut(b, l, rows, x.pools), C);
    hide PreMix, LayerRows, KdaOut, KdaPools;
    var ins := PostInputs(x.streams, body, pre[C..C + HC], pre[C + HC..], 0);
    assert ins[0] == x.streams[0];
  }

  lemma {:induction false} CountingLayers(n: nat, x: Spine<int>)
    requires |x.streams| == HC * C
    ensures Layers(Counting(), n, x).streams[0] == x.streams[0] + n
  {
    hide LayerStep;
    if n > 0 {
      CountingLayers(n - 1, x);
      CountingStep(n - 1, Layers(Counting(), n - 1, x));
    }
  }

  /** Launching again without a reload continues from the live streams, whatever
      the bodies and the start, exactly when the number of layers is even. */
  lemma ComposesIff(layers: nat)
    ensures (forall b: Bodies<int>, x: Spine<int> :: |x.streams| == HC * C ==>
              NextStart(b, layers, x) == Layers(b, layers, x))
       <==> layers % 2 == 0
  {
    hide Layers;
    if layers % 2 != 0 {
      CountingLayers(layers - 1, Zeros());
      CountingLayers(layers, Zeros());
      assert NextStart(Counting(), layers, Zeros()).streams[0] != Layers(Counting(), layers, Zeros()).streams[0];
    }
  }

  /** n launches in a row. */
  function Launches<V>(b: Bodies<V>, layers: nat, n: nat, x: Spine<V>): (r: Spine<V>)
    requires |x.streams| == HC * C
    ensures |r.streams| == HC * C
  {
    if n == 0 then x else NextStart(b, layers, Launches(b, layers, n - 1, x))
  }

  /** n decode steps: the layers, n times over. */
  function Steps<V>(b: Bodies<V>, layers: nat, n: nat, x: Spine<V>): (r: Spine<V>)
    requires |x.streams| == HC * C
    ensures |r.streams| == HC * C
  {
    if n == 0 then x else Layers(b, layers, Steps(b, layers, n - 1, x))
  }

  lemma {:induction false} LaunchesAreSteps<V>(b: Bodies<V>, layers: nat, n: nat, x: Spine<V>)
    requires |x.streams| == HC * C && layers % 2 == 0
    ensures Launches(b, layers, n, x) == Steps(b, layers, n, x)
  {
    hide Layers;
    if n > 0 { LaunchesAreSteps(b, layers, n - 1, x); }
  }

  /** Any number of launches without a reload is as many decode steps, exactly when
      the number of layers is even. */
  lemma StepsComposeIff(layers: nat)
    ensures (forall b: Bodies<int>, n: nat, x: Spine<int> :: |x.streams| == HC * C ==>
              Launches(b, layers, n, x) == Steps(b, layers, n, x))
       <==> layers % 2 == 0
  {
    hide Layers, NextStart;
    if layers % 2 == 0 {
      forall b: Bodies<int>, n: nat, x: Spine<int> | |x.streams| == HC * C
        ensures Launches(b, layers, n, x) == Steps(b, layers, n, x)
      {
        LaunchesAreSteps(b, layers, n, x);
      }
    } else {
      ComposesIff(layers);
      var b: Bodies<int>, x: Spine<int> :| |x.streams| == HC * C && NextStart(b, layers, x) != Layers(b, layers, x);
      assert Launches(b, layers, 0, x) == x && Steps(b, layers, 0, x) == x;
      assert Launches(b, layers, 1, x) != Steps(b, layers, 1, x);
    }
  }

  /** And the output of the n-th launch is the n-th decode step's, for every n,
      exactly when the number of layers is even: with an odd number the second
      output is already another. */
  lemma OutputsComposeIff(layers: nat)
    ensures (forall b: Bodies<int>, n: nat, x: Spine<int> :: |x.streams| == HC * C && n > 0 ==>
              Output(b, layers, n, x) == Steps(b, layers, n, x).streams)
       <==> layers % 2 == 0
  {
    hide Layers, NextStart;
    if layers % 2 == 0 {
      forall b: Bodies<int>, n: nat, x: Spine<int> | |x.streams| == HC * C && n > 0
        ensures Output(b, layers, n, x) == Steps(b, layers, n, x).streams
      {
        LaunchesAreSteps(b, layers, n - 1, x);
      }
    } else {
      SecondOutput(layers);
    }
  }

  /** What the n-th launch shows the caller. */
  function Output<V>(b: Bodies<V>, layers: nat, n: nat, x: Spine<V>): seq<V>
    requires |x.streams| == HC * C && n > 0
  {
    Layers(b, layers, Launches(b, layers, n - 1, x)).streams
  }

  /** For odd L the second output of the counting bodies is 2 L - 1, not 2 L. */
  lemma SecondOutput(layers: nat)
    requires layers % 2 == 1
    ensures |Output(Counting(), layers, 2, Zeros())| == |Steps(Counting(), layers, 2, Zeros()).streams| == HC * C
    ensures Output(Counting(), layers, 2, Zeros())[0] == 2 * layers - 1
    ensures Steps(Counting(), layers, 2, Zeros()).streams[0] == 2 * layers
  {
    var b, x := Counting(), Zeros();
    assert Launches(b, layers, 1, x) == NextStart(b, layers, Launches(b, layers, 0, x));
    assert Steps(b, layers, 2, x) == Layers(b, layers, Steps(b, layers, 1, x));
    assert Steps(b, layers, 1, x) == Layers(b, layers, Steps(b, layers, 0, x));
    CountingLayers(layers - 1, x);
    CountingLayers(layers, x);
    CountingLayers(layers, Launches(b, layers, 1, x));
    CountingLayers(layers, Steps(b, layers, 1, x));
    hide Layers;
  }

  /** Host side: one launch per decode step. */
  class KdaSpineMegakernel<V> {
    const workers: nat
    const layers: nat
    const bodies: Bodies<V>
    var mem: Cell -> V
    var bar: nat
    var barBase: nat

    /** The counter is where the host believes it is. */
    ghost predicate Valid()
      reads this
    {
      workers > 0 && bar == barBase
    }

    constructor (bodies: Bodies<V>, layers: nat, workers: nat, mem: Cell -> V)
      requires workers > 0
      ensures Valid() && this.bodies == bodies && this.layers == layers && this.workers == workers
      ensures this.mem == mem && barBase == 0
    {
      this.bodies, this.layers, this.workers := bodies, layers, workers;
      this.mem, bar, barBase := mem, 0, 0;
    }

    /** load_streams: the buffer layer 0 reads. */
    method LoadStreams(streams: seq<V>)
      requires Valid() && |streams| == HC * C
      modifies `mem
      ensures Valid() && Holds(mem, 0, Spine(streams, old(mem)))
      ensures forall c: Cell :: !(c.Ws? && 0 <= c.off < HC * C) ==> mem(c) == old(mem)(c)
    {
      var m := mem;
      mem := (c: Cell) => if c.Ws? && 0 <= c.off < HC * C then streams[c.off] else m(c);
      assert Region(mem, 0, HC * C) == streams;
    }

    /** The launch itself: workers step in any order the machine chooses. */
    method Launch()
      requires Valid()
      modifies `mem, `bar
      ensures forall c :: mem(c) == After(bodies, layers, workers, old(mem), 7 * layers + 1)(c)
      ensures bar == barBase + workers * (BARRIERS_PER_LAYER * layers)
    {
      hide RunPhases;
      var s := RunWorkers(Kernel(bodies, layers, workers), barBase, mem);
      mem, bar := s.mem, s.bar.counter;
    }

    /** run: launch, then advance the base by 7 * layers * workers. The counter
        check never fails, the output is the live streams, and the next run
        starts where NextStart says. */
    method Run(ghost x: Spine<V>) returns (out: seq<V>)
      requires Valid() && Holds(mem, 0, x)
      modifies `mem, `bar, `barBase
      ensures Valid() && barBase == old(barBase) + BARRIERS_PER_LAYER * layers * workers
      ensures |x.streams| == HC * C && out == Layers(bodies, layers, x).streams
      ensures Holds(mem, layers, Layers(bodies, layers, x))
      ensures Holds(mem, 0, NextStart(bodies, layers, x))
    {
      hide After, Layers, NextStart, Holds, Shown;
      ghost var m := mem;
      assert |x.streams| == HC * C by { HoldsLength(m, 0, x); }
      Launch();
      WholeLaunch(bodies, layers, workers, m, x);
      ghost var m2 := After(bodies, layers, workers, m, 7 * layers + 1);
      SameCells(m2, mem, layers, Layers(bodies, layers, x));
      SameCells(m2, mem, 0, NextStart(bodies, layers, x));
      barBase := barBase + BARRIERS_PER_LAYER * layers * workers;
      out := Shown(mem);
    }

    /** n runs without a reload, and the last one's output: n decode steps when the
        number of layers is even; in general each run starts where NextStart says. */
    method RunMany(n: nat, ghost x: Spine<V>) returns (out: seq<V>)
      requires Valid() && Holds(mem, 0, x) && |x.streams| == HC * C
      modifies `mem, `bar, `barBase
      ensures Valid() && barBase == old(barBase) + n * (BARRIERS_PER_LAYER * layers * workers)
      ensures Holds(mem, 0, Launches(bodies, layers, n, x))
      ensures n > 0 ==> out == Output(bodies, layers, n, x)
      ensures layers % 2 == 0 ==> Holds(mem, 0, Steps(bodies, layers, n, x))
      ensures layers % 2 == 0 && n > 0 ==> out == Steps(bodies, layers, n, x).streams
    {
      hide Holds, NextStart, Layers;
      out := [];
      for i := 0 to n
        invariant Valid() && barBase == old(barBase) + i * (BARRIERS_PER_LAYER * layers * workers)
        invariant Holds(mem, 0, Launches(bodies, layers, i, x))
        invariant i > 0 ==> out == Layers(bodies, layers, Launches(bodies, layers, i - 1, x)).streams
      {
        out := Run(Launches(bodies, layers, i, x));
        MulSucc(i, BARRIERS_PER_LAYER * layers * workers);
      }
      if layers % 2 == 0 {
        LaunchesAreSteps(bodies, layers, n, x);
        if n > 0 { LaunchesAreSteps(bodies, layers, n - 1, x); }
      }
    }
  }

  lemma HoldsLength<V>(m: Memory<Cell, V>, l: nat, x: Spine<V>)
    requires Holds(m, l, x)
    ensures |x.streams| == HC * C
  {
  }
}
