/** One layer of the spine entry by entry: which entries of which row every new stream
    value, head output and pool cell is computed from. */
module SpineFormula {
  import opened IntArith
  import opened Megakernel
  import opened GridMachine
  import opened SpineLayer
  import opened SpineTasks
  import opened Tasks

  /** `to` is a row of n values, each f's of the whole row `from`. */
  ghost predicate Maps<V>(f: (nat, seq<V>, nat) -> V, l: nat, from: seq<V>, to: seq<V>, n: nat) {
    |to| == n && forall i: nat :: i < n ==> to[i] == f(l, from, i)
  }

  lemma MapsRow<V>(f: (nat, seq<V>, nat) -> V, l: nat, from: seq<V>, to: seq<V>, n: nat)
    requires Maps(f, l, from, to, n)
    ensures to == Row(f, l, from, n)
  {
  }

  /** The pre-mix's output: the collapsed row, the post gates, then the mixing matrix by
      rows. */
  datatype Mixed<!V> = Mixed(hin: seq<V>, post: seq<V>, comb: seq<V>)

  ghost predicate PreMixes<V>(b: Bodies<V>, l: nat, streams: seq<V>, mix: Mixed<V>) {
    && |mix.hin| == C && |mix.post| == HC && |mix.comb| == HC * HC
    && (forall c: nat :: c < C ==> mix.hin[c] == b.mhcPre(l, streams, c))
    && (forall j: nat :: j < HC ==> mix.post[j] == b.mhcPre(l, streams, C + j))
    && (forall i: nat :: i < HC * HC ==> mix.comb[i] == b.mhcPre(l, streams, C + HC + i))
  }

  /** The rows of the layer's projections. */
  datatype Projected<!V> = Projected(hrow: seq<V>, mixed: seq<V>, fmid: seq<V>, fraw: seq<V>, braw: seq<V>, gmid: seq<V>, graw: seq<V>)

  ghost predicate Projects<V>(b: Bodies<V>, l: nat, hin: seq<V>, p: Projected<V>) {
    && Maps(b.rms, l, hin, p.hrow, C) && Maps(b.qkv, l, p.hrow, p.mixed, 3 * H * D)
    && Maps(b.fa, l, p.hrow, p.fmid, D) && Maps(b.fb, l, p.fmid, p.fraw, H * D)
    && Maps(b.bw, l, p.hrow, p.braw, H)
    && Maps(b.ga, l, p.hrow, p.gmid, D) && Maps(b.gb, l, p.gmid, p.graw, H * D)
  }

  /** What head h loads: its stripes of q, k and v, of the decay row, its beta, its stripe
      of the gate row, then its three stripes of every tap row and its state, [V, K]. */
  ghost predicate HeadReads<V>(xs: seq<V>, p: Projected<V>, pools: Cell -> V, l: nat, h: nat)
    requires h < H && |p.mixed| == 3 * H * D && |p.fraw| == |p.graw| == H * D && |p.braw| == H
  {
    var q := h * D;
    && |xs| == 14 * D + 1 + D * D
    && xs[..D] == p.mixed[q..q + D]
    && xs[D..2 * D] == p.mixed[H * D + q..H * D + q + D]
    && xs[2 * D..3 * D] == p.mixed[2 * H * D + q..2 * H * D + q + D]
    && xs[3 * D..4 * D] == p.fraw[q..q + D]
    && xs[4 * D] == p.braw[h]
    && xs[4 * D + 1..5 * D + 1] == p.graw[q..q + D]
    && PoolReads(xs[5 * D + 1..], pools, l, h)
  }

  /** Stripe g (q, k or v) of tap row tap: its place in the list, and its column in the pool. */
  function ConvPlace(tap: nat, g: nat, d: nat): nat { (3 * tap + g) * D + d }

  function ConvColumn(h: nat, g: nat, d: nat): nat { (g * H + h) * D + d }

  /** Entry (v, k) of the state, after the nine stripes. */
  function StatePlace(v: nat, k: nat): nat { (9 + v) * D + k }

  ghost predicate PoolReads<V>(xs: seq<V>, pools: Cell -> V, l: nat, h: nat)
    requires |xs| == 9 * D + D * D
  {
    && (forall tap: nat, g: nat, d: nat :: tap < 3 && g < 3 && d < D && ConvPlace(tap, g, d) < |xs| ==>
      xs[ConvPlace(tap, g, d)] == pools(Conv(l, tap, ConvColumn(h, g, d))))
    && (forall v: nat, k: nat :: v < D && k < D && StatePlace(v, k) < |xs| ==>
      xs[StatePlace(v, k)] == pools(Ssm(l, h, v, k)))
  }

  /** The list place i of the pool part, whichever it is. */
  lemma PlaceKinds(l: nat, h: nat, i: nat) returns (tap: nat, g: nat, d: nat, v: nat)
    requires h < H && i < 9 * D + D * D
    ensures d < D && (i < 9 * D ==>
      tap < 3 && g < 3 && i == ConvPlace(tap, g, d) && PoolCell(l, h, i) == Conv(l, tap, ConvColumn(h, g, d)))
    ensures i >= 9 * D ==> v < D && i == StatePlace(v, d) && PoolCell(l, h, i) == Ssm(l, h, v, d)
  {
    if i < 9 * D {
      PlaceParts(i);
      DivMod(i, 3 * D);
      tap, g, d, v := i / (3 * D), i % (3 * D) / D, i % D, 0;
    } else {
      DivMod(i - 9 * D, D);
      tap, g, d, v := 0, 0, (i - 9 * D) % D, (i - 9 * D) / D;
    }
  }

  lemma PoolsRead<V>(xs: seq<V>, pools: Cell -> V, l: nat, h: nat)
    requires h < H && |xs| == 9 * D + D * D && PoolReads(xs, pools, l, h)
    ensures xs == PoolValues(pools, l, h)
  {
    hide PoolCell;
    forall i: nat | i < |xs| ensures xs[i] == PoolValues(pools, l, h)[i] {
      var tap, g, d, v := PlaceKinds(l, h, i);
      hide ConvPlace, ConvColumn, StatePlace;
    }
  }

  lemma HeadsRead<V>(xs: seq<V>, p: Projected<V>, rows: KdaRows<V>, pools: Cell -> V, l: nat, h: nat)
    requires h < H && rows.Full() && rows == KdaRows(p.mixed, p.fraw, p.braw, p.graw)
    requires HeadReads(xs, p, pools, l, h)
    ensures xs == HeadInputs(rows, pools, l, h)
  {
    PoolsRead(xs[5 * D + 1..], pools, l, h);
    hide PoolReads, PoolValues;
    assert xs[4 * D..4 * D + 1] == [p.braw[h]];
    var a, c, d, e, f, g := xs[..D], xs[D..2 * D], xs[2 * D..3 * D], xs[3 * D..4 * D], xs[4 * D..4 * D + 1], xs[4 * D + 1..5 * D + 1];
    assert xs == Seven(a, c, d, e, f, g, xs[5 * D + 1..]);
    assert a == Stripe(rows.mixed, 0, h);
    assert c == Stripe(rows.mixed, SEG, h);
    assert d == Stripe(rows.mixed, 2 * SEG, h);
    assert e == Stripe(rows.fraw, 0, h) && g == Stripe(rows.graw, 0, h);
  }

  // ---- One layer -------------------------------------------------------------------------

  /** Every row of one layer, from the pre-mix to the body row. */
  datatype Parts<!V> = Parts(mix: Mixed<V>, p: Projected<V>, heads: seq<seq<V>>, out: seq<V>, body: seq<V>)

  ghost predicate LayerParts<V>(b: Bodies<V>, l: nat, x: Spine<V>, r: Parts<V>) {
    && PreMixes(b, l, x.streams, r.mix) && Projects(b, l, r.mix.hin, r.p)
    && |r.heads| == H && (forall h: nat :: h < H ==> HeadReads(r.heads[h], r.p, x.pools, l, h))
    && |r.out| == H * D && (forall h: nat :: h < H ==> HeadOut(b, l, h, r.heads[h], r.out[h * D..h * D + D]))
    && Maps(b.ow, l, r.out, r.body, C)
  }

  ghost predicate HeadOut<V>(b: Bodies<V>, l: nat, h: nat, xs: seq<V>, stripe: seq<V>) {
    |stripe| == D && forall d: nat :: d < D ==> stripe[d] == b.kda(l, h, xs, d)
  }

  lemma MixesPre<V>(b: Bodies<V>, l: nat, streams: seq<V>, mix: Mixed<V>)
    requires PreMixes(b, l, streams, mix)
    ensures var pre := PreMix(b, l, streams);
      pre[..C] == mix.hin && pre[C..C + HC] == mix.post && pre[C + HC..] == mix.comb
  {
  }

  lemma RowsProjected<V>(b: Bodies<V>, l: nat, hin: seq<V>, p: Projected<V>)
    requires Projects(b, l, hin, p)
    ensures LayerRows(b, l, hin) == KdaRows(p.mixed, p.fraw, p.braw, p.graw)
  {
    MapsRow(b.rms, l, hin, p.hrow, C);
    MapsRow(b.qkv, l, p.hrow, p.mixed, 3 * H * D);
    MapsRow(b.fa, l, p.hrow, p.fmid, D);
    MapsRow(b.fb, l, p.fmid, p.fraw, H * D);
    MapsRow(b.bw, l, p.hrow, p.braw, H);
    MapsRow(b.ga, l, p.hrow, p.gmid, D);
    MapsRow(b.gb, l, p.gmid, p.graw, H * D);
    hide Row, Maps;
  }

  lemma OutIs<V>(b: Bodies<V>, l: nat, rows: KdaRows<V>, pools: Cell -> V, heads: seq<seq<V>>, out: seq<V>)
    requires rows.Full() && |heads| == H && |out| == H * D
    requires forall h: nat :: h < H ==> heads[h] == HeadInputs(rows, pools, l, h)
    requires forall h: nat :: h < H ==> HeadOut(b, l, h, heads[h], out[h * D..h * D + D])
    ensures out == KdaOut(b, l, rows, pools)
  {
    hide HeadInputs, PoolValues;
    forall n: nat | n < H * D ensures out[n] == KdaOut(b, l, rows, pools)[n] {
      DivMod(n, D);
      var h, d := n / D, n % D;
      assert HeadOut(b, l, h, heads[h], out[h * D..h * D + D]);
      assert out[n] == out[h * D..h * D + D][d];
    }
  }

  lemma PartsAre<V>(b: Bodies<V>, l: nat, x: Spine<V>, r: Parts<V>)
    requires LayerParts(b, l, x, r)
    ensures var rows := KdaRows(r.p.mixed, r.p.fraw, r.p.braw, r.p.graw);
      && rows.Full() && (forall h: nat :: h < H ==> r.heads[h] == HeadInputs(rows, x.pools, l, h))
      && LayerStep(b, l, x)
        == Spine(Compose(b, x.streams, r.body, r.mix.post, r.mix.comb), KdaPools(b, l, rows, x.pools))
  {
    var rows := KdaRows(r.p.mixed, r.p.fraw, r.p.braw, r.p.graw);
    MixesPre(b, l, x.streams, r.mix);
    RowsProjected(b, l, r.mix.hin, r.p);
    forall h: nat | h < H ensures r.heads[h] == HeadInputs(rows, x.pools, l, h) {
      HeadsRead(r.heads[h], r.p, rows, x.pools, l, h);
    }
    hide HeadInputs, HeadReads, HeadOut, PreMix, LayerRows, Row, Compose, KdaPools, KdaOut, Projects, PreMixes;
    OutIs(b, l, rows, x.pools, r.heads, r.out);
    MapsRow(b.ow, l, r.out, r.body, C);
  }

  /** New stream j at place c comes from post gate j, the body row, the old streams and
      entries (0, j), ..., (3, j) of the mixing matrix. */
  lemma StreamFormula<V>(b: Bodies<V>, l: nat, x: Spine<V>, r: Parts<V>, j: nat, c: nat)
    requires LayerParts(b, l, x, r) && j < HC && c < C
    ensures var comb := r.mix.comb;
      LayerStep(b, l, x).streams[j * C + c] == b.mhcPost(j,
        x.streams + r.body + [r.mix.post[j], comb[0 * HC + j], comb[1 * HC + j], comb[2 * HC + j], comb[3 * HC + j]], c)
  {
    PartsAre(b, l, x, r);
    hide LayerStep, KdaPools, HeadInputs, Projects, HeadReads, HeadOut;
    DivUnique(j * C + c, C, j);
    var comb := r.mix.comb;
    assert PostInputs(x.streams, r.body, r.mix.post, comb, j) == x.streams + r.body
      + [r.mix.post[j], comb[0 * HC + j], comb[1 * HC + j], comb[2 * HC + j], comb[3 * HC + j]];
    hide PostInputs;
    assert Compose(b, x.streams, r.body, r.mix.post, comb)[j * C + c]
      == b.mhcPost(j, PostInputs(x.streams, r.body, r.mix.post, comb, j), c);
  }

  lemma TapPlace(l: nat, h: nat, tap: nat, g: nat, d: nat)
    requires h < H && tap < 3 && g < 3 && d < D
    ensures var c := Conv(l, tap, ConvColumn(h, g, d)); LayerPool(c, l) && HeadOf(c) == h && PlaceOf(c) == ConvPlace(tap, g, d)
  {
    HeadColumn(g, h, d);
  }

  lemma PoolAt<V>(b: Bodies<V>, l: nat, rows: KdaRows<V>, pools: Cell -> V, c: Cell)
    requires rows.Full() && LayerPool(c, l)
    ensures 0 <= HeadOf(c) < H && PlaceOf(c) >= 0
    ensures KdaPools(b, l, rows, pools)(c) == b.kda(l, HeadOf(c), HeadInputs(rows, pools, l, HeadOf(c)), D + PlaceOf(c))
  {
    PoolCellOf(c, l);
    hide HeadInputs;
  }

  /** Head h's pool cells get its results, in the order it read them; every other pool
      cell is kept. */
  lemma PoolFormula<V>(b: Bodies<V>, l: nat, x: Spine<V>, r: Parts<V>, h: nat)
    requires LayerParts(b, l, x, r) && h < H
    ensures forall tap: nat, g: nat, d: nat :: tap < 3 && g < 3 && d < D ==>
      LayerStep(b, l, x).pools(Conv(l, tap, ConvColumn(h, g, d))) == b.kda(l, h, r.heads[h], D + ConvPlace(tap, g, d))
    ensures forall v: nat, k: nat :: v < D && k < D ==>
      LayerStep(b, l, x).pools(Ssm(l, h, v, k)) == b.kda(l, h, r.heads[h], D + StatePlace(v, k))
  {
    PartsAre(b, l, x, r);
    hide LayerStep, Compose, HeadInputs, LayerParts, KdaPools, HeadOf, PlaceOf, ConvPlace, ConvColumn, StatePlace;
    var rows := KdaRows(r.p.mixed, r.p.fraw, r.p.braw, r.p.graw);
    forall tap: nat, g: nat, d: nat | tap < 3 && g < 3 && d < D
      ensures KdaPools(b, l, rows, x.pools)(Conv(l, tap, ConvColumn(h, g, d))) == b.kda(l, h, r.heads[h], D + ConvPlace(tap, g, d))
    {
      TapPlace(l, h, tap, g, d);
      PoolAt(b, l, rows, x.pools, Conv(l, tap, ConvColumn(h, g, d)));
    }
    forall v: nat, k: nat | v < D && k < D
      ensures KdaPools(b, l, rows, x.pools)(Ssm(l, h, v, k)) == b.kda(l, h, r.heads[h], D + StatePlace(v, k))
    {
      StatePool(l, h, v, k);
      PoolAt(b, l, rows, x.pools, Ssm(l, h, v, k));
    }
  }

  lemma StatePool(l: nat, h: nat, v: nat, k: nat)
    requires h < H && v < D && k < D
    ensures var c := Ssm(l, h, v, k); LayerPool(c, l) && HeadOf(c) == h && PlaceOf(c) == StatePlace(v, k)
  {
  }

  lemma PoolsOfOthers<V>(b: Bodies<V>, l: nat, x: Spine<V>, c: Cell)
    requires match c
      case Conv(layer, tap, col) => layer != l || tap >= 3 || col >= 3 * H * D
      case Ssm(layer, h, v, k) => layer != l || h >= H || v >= D || k >= D
      case _ => true
    ensures LayerStep(b, l, x).pools(c) == x.pools(c)
  {
    hide Compose, KdaOut, Row, PreMix, LayerRows;
  }

  lemma ValuesRead<V>(pools: Cell -> V, l: nat, h: nat)
    requires h < H
    ensures PoolReads(PoolValues(pools, l, h), pools, l, h)
  {
    var xs := PoolValues(pools, l, h);
    forall tap: nat, g: nat, d: nat | tap < 3 && g < 3 && d < D
      ensures ConvPlace(tap, g, d) < |xs| && xs[ConvPlace(tap, g, d)] == pools(Conv(l, tap, ConvColumn(h, g, d)))
    {
      HeadColumn(g, h, d);
      var c := Conv(l, tap, ConvColumn(h, g, d));
      assert PlaceOf(c) == ConvPlace(tap, g, d) && HeadOf(c) == h;
      PoolCellOf(c, l);
    }
    forall v: nat, k: nat | v < D && k < D
      ensures StatePlace(v, k) < |xs| && xs[StatePlace(v, k)] == pools(Ssm(l, h, v, k))
    {
      PoolCellOf(Ssm(l, h, v, k), l);
    }
  }

  lemma InputsRead<V>(p: Projected<V>, rows: KdaRows<V>, pools: Cell -> V, l: nat, h: nat)
    requires h < H && rows.Full() && rows == KdaRows(p.mixed, p.fraw, p.braw, p.graw)
    ensures HeadReads(HeadInputs(rows, pools, l, h), p, pools, l, h)
  {
    hide PoolReads, PoolValues;
    ValuesRead(pools, l, h);
    var xs := HeadInputs(rows, pools, l, h);
    assert xs[5 * D + 1..] == PoolValues(pools, l, h);
  }

  /** Every layer has such rows. */
  lemma PartsOf<V>(b: Bodies<V>, l: nat, x: Spine<V>) returns (r: Parts<V>)
    ensures LayerParts(b, l, x, r)
  {
    var pre := PreMix(b, l, x.streams);
    var mix := Mixed(pre[..C], pre[C..C + HC], pre[C + HC..]);
    var hrow := Row(b.rms, l, mix.hin, C);
    var fmid, gmid := Row(b.fa, l, hrow, D), Row(b.ga, l, hrow, D);
    var p := Projected(hrow, Row(b.qkv, l, hrow, 3 * H * D), fmid, Row(b.fb, l, fmid, H * D), Row(b.bw, l, hrow, H),
                       gmid, Row(b.gb, l, gmid, H * D));
    var rows := KdaRows(p.mixed, p.fraw, p.braw, p.graw);
    var heads := seq(H, h requires 0 <= h < H => HeadInputs(rows, x.pools, l, h));
    var out := KdaOut(b, l, rows, x.pools);
    assert PreMixes(b, l, x.streams, mix) && Projects(b, l, mix.hin, p);
    hide PreMixes, Projects, PreMix, Row, HeadInputs, HeadReads;
    forall h: nat | h < H ensures HeadReads(heads[h], p, x.pools, l, h) { InputsRead(p, rows, x.pools, l, h); }
    forall h: nat | h < H ensures HeadOut(b, l, h, heads[h], out[h * D..h * D + D]) {
      forall d: nat | d < D ensures out[h * D..h * D + D][d] == b.kda(l, h, heads[h], d) {
        DivUnique(h * D + d, D, h);
      }
    }
    r := Parts(mix, p, heads, out, Row(b.ow, l, out, C));
  }

  // ---- Mixing over the reals, and the whole launch -----------------------------------------

  /** The post-compose body: gate times body plus the four weighted streams. */
  ghost predicate Composes(b: Bodies<real>) {
    forall j: nat, streams: seq<real>, body: seq<real>, w: seq<real>, c: nat ::
      j < HC && |streams| == HC * C && |body| == C && |w| == 1 + HC && c < C ==>
        b.mhcPost(j, streams + body + w, c) == w[0] * body[c]
          + w[1] * streams[c] + w[2] * streams[C + c] + w[3] * streams[2 * C + c] + w[4] * streams[3 * C + c]
  }

  /** post[j] body + the sum over k of comb[k, j] stream k, at place c. */
  function Mix(r: Parts<real>, before: seq<real>, j: nat, c: nat): real
    requires |r.mix.post| == HC && |r.mix.comb| == HC * HC && |r.body| == C && |before| == HC * C && j < HC && c < C
  {
    var comb := r.mix.comb;
    r.mix.post[j] * r.body[c]
      + comb[0 * HC + j] * before[0 * C + c] + comb[1 * HC + j] * before[1 * C + c]
      + comb[2 * HC + j] * before[2 * C + c] + comb[3 * HC + j] * before[3 * C + c]
  }

  /** One layer's new streams. */
  lemma Mixes(b: Bodies<real>, l: nat, x: Spine<real>, r: Parts<real>, j: nat, c: nat)
    requires Composes(b) && |x.streams| == HC * C && LayerParts(b, l, x, r) && j < HC && c < C
    ensures LayerStep(b, l, x).streams[j * C + c] == Mix(r, x.streams, j, c)
  {
    StreamFormula(b, l, x, r, j, c);
    hide LayerStep, Projects, HeadReads, HeadOut;
    var comb := r.mix.comb;
    var w := [r.mix.post[j], comb[0 * HC + j], comb[1 * HC + j], comb[2 * HC + j], comb[3 * HC + j]];
    assert |w| == 1 + HC;
  }

  lemma LaunchShows<V>(b: Bodies<V>, layers: nat, p: nat, base: nat, m: Memory<Cell, V>, x: Spine<V>,
                       sched: seq<nat>, o: nat)
    requires p > 0 && layers > 0 && Holds(m, 0, x) && |x.streams| == HC * C && o < HC * C
    requires forall i :: 0 <= i < |sched| ==> sched[i] < p
    requires Finished(Kernel(b, layers, p), Exec(Kernel(b, layers, p), base, m, sched))
    ensures Exec(Kernel(b, layers, p), base, m, sched).mem(Live(o))
      == LayerStep(b, layers - 1, Layers(b, layers - 1, x)).streams[o]
  {
    hide LayerStep, Kernel, Exec, Finished, Holds;
    LaunchRefinesLayers(b, layers, p, base, m, x, sched);
    var mem := Exec(Kernel(b, layers, p), base, m, sched).mem;
    assert Shown(mem)[o] == mem(Live(o));
  }

  /** So for a finished launch of any schedule: what it shows is the last layer's mix of
      the streams the layers before it left. */
  lemma LaunchMixes(b: Bodies<real>, layers: nat, p: nat, base: nat, m: Memory<Cell, real>, x: Spine<real>,
                    sched: seq<nat>, r: Parts<real>, j: nat, c: nat)
    requires Composes(b) && p > 0 && layers > 0 && Holds(m, 0, x) && |x.streams| == HC * C && j < HC && c < C
    requires forall i :: 0 <= i < |sched| ==> sched[i] < p
    requires Finished(Kernel(b, layers, p), Exec(Kernel(b, layers, p), base, m, sched))
    requires LayerParts(b, layers - 1, Layers(b, layers - 1, x), r)
    ensures Exec(Kernel(b, layers, p), base, m, sched).mem(Live(j * C + c))
      == Mix(r, Layers(b, layers - 1, x).streams, j, c)
  {
    hide LayerStep, Kernel, Exec, Finished, Holds, Mix, Layers, Composes;
    LaunchShows(b, layers, p, base, m, x, sched, j * C + c);
    Mixes(b, layers - 1, Layers(b, layers - 1, x), r, j, c);
  }
}
