/** What one layer of the spine computes, as plain functions of the streams and
    the pools, and the proof that the seven workspace phases compute exactly that. */
module SpineLayer {
  import opened GridCalls
  import opened IntArith
  import opened SpineTasks
  import opened Tasks

  /** The streams, row by row, and the value of every pool cell. */
  datatype Spine<!V> = Spine(streams: seq<V>, pools: Cell -> V)

  function Region<V>(m: Memory<Cell, V>, lo: int, n: nat): (r: seq<V>)
    ensures |r| == n && forall i :: 0 <= i < n ==> r[i] == m(Ws(lo + i))
  {
    seq(n, i requires 0 <= i => m(Ws(lo + i)))
  }

  function Row<V>(f: (nat, seq<V>, nat) -> V, l: nat, x: seq<V>, n: nat): (r: seq<V>)
    ensures |r| == n && forall i :: 0 <= i < n ==> r[i] == f(l, x, i)
  {
    seq(n, i requires 0 <= i => f(l, x, i))
  }

  /** Head h's share of a row of H * D values. */
  function Stripe<V>(x: seq<V>, lo: nat, h: nat): (r: seq<V>)
    requires h < H && |x| >= lo + SEG
    ensures |r| == D && forall i :: 0 <= i < D ==> r[i] == x[lo + h * D + i]
  {
    x[lo + h * D..lo + h * D + D]
  }

  /** The rows a layer's KDA step reads. */
  datatype KdaRows<!V> = KdaRows(mixed: seq<V>, fraw: seq<V>, braw: seq<V>, graw: seq<V>)
  {
    ghost predicate Full() { |mixed| == CC && |fraw| == SEG && |braw| == H && |graw| == SEG }
  }

  function PoolValues<V>(pools: Cell -> V, l: nat, h: nat): (r: seq<V>)
    ensures |r| == 9 * D + D * D && forall i :: 0 <= i < |r| ==> r[i] == pools(PoolCell(l, h, i))
  {
    seq(9 * D + D * D, i requires 0 <= i => pools(PoolCell(l, h, i)))
  }

  function HeadInputs<V>(rows: KdaRows<V>, pools: Cell -> V, l: nat, h: nat): seq<V>
    requires rows.Full() && h < H
  {
    Seven(Stripe(rows.mixed, 0, h), Stripe(rows.mixed, SEG, h), Stripe(rows.mixed, 2 * SEG, h),
          Stripe(rows.fraw, 0, h), [rows.braw[h]], Stripe(rows.graw, 0, h), PoolValues(pools, l, h))
  }

  /** A cell of layer l's own part of the pools. */
  predicate LayerPool(c: Cell, l: nat) {
    match c
    case Conv(layer, tap, col) => layer == l && tap < KW && col < CC
    case Ssm(layer, head, v, k) => layer == l && head < H && v < D && k < D
    case _ => false
  }

  lemma StripePlace(tap: nat, col: nat)
    requires tap < KW && col < CC
    ensures var g, h, d := col / SEG, col % SEG / D, col % D;
      && 0 <= g < 3 && 0 <= h < H && col == g * SEG + h * D + d
      && var i := tap * (3 * D) + g * D + d;
        0 <= i < 9 * D && i / (3 * D) == tap && i % (3 * D) / D == g && i % D == d
  {
    DivMod(col, SEG);
    DivMod(col % SEG, D);
    var g, h, d := col / SEG, col % SEG / D, col % SEG % D;
    DivUnique(col, D, g * H + h);
    var i := tap * (3 * D) + g * D + d;
    DivUnique(i, 3 * D, tap);
    DivUnique(g * D + d, D, g);
    DivUnique(i, D, tap * 3 + g);
  }

  lemma PoolCellOf(c: Cell, l: nat)
    requires LayerPool(c, l)
    ensures 0 <= HeadOf(c) < H && 0 <= PlaceOf(c) < 9 * D + D * D
    ensures PoolCell(l, HeadOf(c), PlaceOf(c)) == c
  {
    match c
    case Conv(_, tap, col) => StripePlace(tap, col);
    case Ssm(_, head, v, k) => DivUnique(v * D + k, D, v);
  }

  function KdaOut<V>(b: Bodies<V>, l: nat, rows: KdaRows<V>, pools: Cell -> V): (r: seq<V>)
    requires rows.Full()
    ensures |r| == SEG
  {
    seq(SEG, n requires 0 <= n < SEG => b.kda(l, n / D, HeadInputs(rows, pools, l, n / D), n % D))
  }

  function KdaPools<V>(b: Bodies<V>, l: nat, rows: KdaRows<V>, pools: Cell -> V): Cell -> V
    requires rows.Full()
  {
    c => if LayerPool(c, l)
      then
        PoolCellOf(c, l);
        b.kda(l, HeadOf(c), HeadInputs(rows, pools, l, HeadOf(c)), D + PlaceOf(c))
      else pools(c)
  }

  function PreMix<V>(b: Bodies<V>, l: nat, streams: seq<V>): (r: seq<V>)
    ensures |r| == C + HC + HC * HC
  {
    Row(b.mhcPre, l, streams, C + HC + HC * HC)
  }

  function LayerRows<V>(b: Bodies<V>, l: nat, hin: seq<V>): (r: KdaRows<V>)
    ensures r.Full()
  {
    var hrow := Row(b.rms, l, hin, C);
    KdaRows(Row(b.qkv, l, hrow, CC), Row(b.fb, l, Row(b.fa, l, hrow, D), SEG),
            Row(b.bw, l, hrow, H), Row(b.gb, l, Row(b.ga, l, hrow, D), SEG))
  }

  /** The chain of maps of one layer, with no workspace. */
  function LayerStep<V>(b: Bodies<V>, l: nat, x: Spine<V>): (r: Spine<V>)
    ensures |r.streams| == HC * C
  {
    var pre := PreMix(b, l, x.streams);
    var rows := LayerRows(b, l, pre[..C]);
    var body := Row(b.ow, l, KdaOut(b, l, rows, x.pools), C);
    Spine(Compose(b, x.streams, body, pre[C..C + HC], pre[C + HC..]), KdaPools(b, l, rows, x.pools))
  }

  /** Stream row j from the old streams, the body row, its post gate and its
      column of the mixing matrix. */
  function PostInputs<V>(streams: seq<V>, body: seq<V>, post: seq<V>, comb: seq<V>, j: nat): seq<V>
    requires |post| == HC && |comb| == HC * HC && j < HC
  {
    streams + body + [post[j], comb[j], comb[HC + j], comb[2 * HC + j], comb[3 * HC + j]]
  }

  function Compose<V>(b: Bodies<V>, streams: seq<V>, body: seq<V>, post: seq<V>, comb: seq<V>): (r: seq<V>)
    requires |post| == HC && |comb| == HC * HC
    ensures |r| == HC * C
  {
    seq(HC * C, n requires 0 <= n < HC * C => b.mhcPost(n / C, PostInputs(streams, body, post, comb, n / C), n % C))
  }

  // ---- What each phase leaves in memory ---------------------------------------------

  /** The cells phase `phase` of layer l may write. */
  predicate Written(l: nat, phase: nat, c: Cell) {
    match c
    case Ws(o) =>
      (phase == 0 && (HIN <= o < HROW || POSTW <= o < KDAOUT))
      || (phase == 1 && HROW <= o < MIXED)
      || (phase == 2 && (MIXED <= o < FRAW || BRAW <= o < GRAW))
      || (phase == 3 && (FRAW <= o < BRAW || GRAW <= o < POSTW))
      || (phase == 4 && KDAOUT <= o < BODY)
      || (phase == 5 && BODY <= o < WS_TOTAL)
      || (phase == 6 && Buffer(l + 1) <= o < Buffer(l + 1) + HC * C)
    case Live(_) => false
    case _ => phase == 4 && LayerPool(c, l)
  }

  function AfterPhase<V>(b: Bodies<V>, l: nat, phase: nat, m: Memory<Cell, V>): Memory<Cell, V>
    requires phase < 7
  {
    var tasks := Flat(Calls(b, l, phase));
    RunTasks(m, tasks, |tasks|)
  }

  /** A task's results, in memory after its phase. */
  lemma PhaseResult<V>(b: Bodies<V>, l: nat, phase: nat, m: Memory<Cell, V>, c: nat, t: nat)
    requires phase < 7 && c < |Calls(b, l, phase)| && t < |Calls(b, l, phase)[c]|
    ensures var task := Calls(b, l, phase)[c][t];
      forall k :: 0 <= k < |task.outs| ==> AfterPhase(b, l, phase, m)(task.outs[k]) == task.Out(m, k)
  {
    hide Calls, RunTasks;
    var tasks := Flat(Calls(b, l, phase));
    PhaseRaceFree(b, l, phase);
    FlatAt(Calls(b, l, phase), c, t);
    hide RaceFree;
    PhaseCells(m, tasks, |tasks|);
  }

  /** Every output of a row map, whatever its tiling. */
  lemma MapResult<V>(b: Bodies<V>, l: nat, phase: nat, m: Memory<Cell, V>, c: nat)
    requires phase == 1 || phase == 2 || phase == 3 || phase == 5
    requires c < |RowMaps(b, l, phase)| && RowMaps(b, l, phase)[c].tile > 0
    ensures var a := RowMaps(b, l, phase)[c];
      forall i: nat :: i < a.count * a.tile ==>
        AfterPhase(b, l, phase, m)(Ws(a.dst + i)) == a.f(Region(m, a.src, a.k), i)
  {
    hide RowMaps, AfterPhase;
    var a := RowMaps(b, l, phase)[c];
    forall i: nat | i < a.count * a.tile
      ensures AfterPhase(b, l, phase, m)(Ws(a.dst + i)) == a.f(Region(m, a.src, a.k), i)
    {
      var t, k := i / a.tile, i % a.tile;
      TileOf(i, a.tile, a.count);
      assert Calls(b, l, phase)[c] == a.TileTasks();
      PhaseResult(b, l, phase, m, c, t);
      var task := a.TileTask(t);
      assert task.outs[k] == Ws(a.dst + i);
      assert task.Loads(m) == Region(m, a.src, a.k);
    }
  }

  lemma TileOf(i: nat, tile: nat, count: nat)
    requires tile > 0 && i < count * tile
    ensures 0 <= i / tile < count && 0 <= i % tile < tile && i == i / tile * tile + i % tile
  {
    DivMod(i, tile);
    if i / tile >= count { MulMono(count, i / tile, tile); }
    if i / tile < 0 { MulMono(i / tile, -1, tile); }
  }

  /** A phase leaves every other cell alone. */
  lemma PhaseFrame<V>(b: Bodies<V>, l: nat, phase: nat, m: Memory<Cell, V>)
    requires phase < 7
    ensures forall c :: !Written(l, phase, c) ==> AfterPhase(b, l, phase, m)(c) == m(c)
  {
    hide Calls, Written, RunTasks;
    var tasks := Flat(Calls(b, l, phase));
    PhaseRaceFree(b, l, phase);
    hide RaceFree;
    PhaseCells(m, tasks, |tasks|);
    forall c | !Written(l, phase, c) ensures AfterPhase(b, l, phase, m)(c) == m(c) {
      forall j | 0 <= j < |tasks| ensures c !in tasks[j].outs {
        var call, t := FlatFind(Calls(b, l, phase), j);
        OutsWritten(b, l, phase, call, t, c);
      }
      assert Untouched(tasks, |tasks|, c);
    }
  }

  lemma MapOutsWritten<V>(b: Bodies<V>, l: nat, phase: nat, call: nat, t: nat, c: Cell)
    requires call < |RowMaps(b, l, phase)| && t < RowMaps(b, l, phase)[call].count
    requires c in RowMaps(b, l, phase)[call].TileTask(t).outs
    ensures Written(l, phase, c)
  {
    hide Buffer;
    var a := RowMaps(b, l, phase)[call];
    TileBounds(a.tile, t, a.count);
    assert c.Ws? && a.dst <= c.off < a.End();
  }

  lemma OutsWritten<V>(b: Bodies<V>, l: nat, phase: nat, call: nat, t: nat, c: Cell)
    requires phase < 7 && call < |Calls(b, l, phase)| && t < |Calls(b, l, phase)[call]|
    ensures c in Calls(b, l, phase)[call][t].outs ==> Written(l, phase, c)
  {
    hide Buffer, RowMaps;
    if c in Calls(b, l, phase)[call][t].outs {
      if phase == 4 {
        PoolOutsWritten(b, l, t, c);
      } else if phase == 1 || phase == 2 || phase == 3 || phase == 5 {
        assert Calls(b, l, phase)[call][t] == RowMaps(b, l, phase)[call].TileTask(t);
        MapOutsWritten(b, l, phase, call, t, c);
      } else if phase == 6 {
        assert Calls(b, l, phase)[call][t] == MhcPost(b, l, t);
      } else {
        assert Calls(b, l, phase)[call][t] == MhcPre(b, l);
      }
    }
  }

  lemma PoolOutsWritten<V>(b: Bodies<V>, l: nat, h: nat, c: Cell)
    requires h < H && c in KdaHead(b, l, h).outs
    ensures Written(l, 4, c)
  {
    hide PoolCell;
    if c in Pools(l, h) {
      var i :| 0 <= i < |Pools(l, h)| && Pools(l, h)[i] == c;
      PoolCellIn(l, h, i);
    }
  }

  lemma PoolCellIn(l: nat, h: nat, i: nat)
    requires h < H && i < 9 * D + D * D
    ensures LayerPool(PoolCell(l, h, i), l)
  {
    if i < 9 * D {
      PlaceParts(i);
      DivMod(i, 3 * D);
    } else {
      DivMod(i - 9 * D, D);
    }
  }

  lemma PreCell<V>(b: Bodies<V>, l: nat, m: Memory<Cell, V>, i: nat)
    requires i < C + HC + HC * HC
    ensures AfterPhase(b, l, 0, m)(Ws(if i < C then HIN + i else POSTW + (i - C)))
      == b.mhcPre(l, Region(m, Buffer(l), HC * C), i)
  {
    hide AfterPhase, Buffer;
    PhaseResult(b, l, 0, m, 0, 0);
    var t := MhcPre(b, l);
    assert Calls(b, l, 0)[0][0] == t;
    assert t.Loads(m) == Region(m, Buffer(l), HC * C);
    assert t.outs[i] == Ws(if i < C then HIN + i else POSTW + (i - C));
  }

  lemma PreResult<V>(b: Bodies<V>, l: nat, m: Memory<Cell, V>)
    ensures var pre := PreMix(b, l, Region(m, Buffer(l), HC * C));
      && Region(AfterPhase(b, l, 0, m), HIN, C) == pre[..C]
      && Region(AfterPhase(b, l, 0, m), POSTW, HC) == pre[C..C + HC]
      && Region(AfterPhase(b, l, 0, m), COMB, HC * HC) == pre[C + HC..]
  {
    hide AfterPhase, Buffer;
    var m2 := AfterPhase(b, l, 0, m);
    var pre := PreMix(b, l, Region(m, Buffer(l), HC * C));
    forall i | 0 <= i < C ensures Region(m2, HIN, C)[i] == pre[..C][i] {
      PreCell(b, l, m, i);
    }
    forall i | 0 <= i < HC ensures Region(m2, POSTW, HC)[i] == pre[C..C + HC][i] {
      PreCell(b, l, m, C + i);
    }
    forall i | 0 <= i < HC * HC ensures Region(m2, COMB, HC * HC)[i] == pre[C + HC..][i] {
      PreCell(b, l, m, C + HC + i);
    }
  }

  /** The rows phase 5 finds in the workspace. */
  function RowsIn<V>(m: Memory<Cell, V>): (r: KdaRows<V>)
    ensures r.Full()
  {
    KdaRows(Region(m, MIXED, CC), Region(m, FRAW, SEG), Region(m, BRAW, H), Region(m, GRAW, SEG))
  }

  function LoadAll<V>(m: Memory<Cell, V>, cells: seq<Cell>): (r: seq<V>)
    ensures |r| == |cells| && forall i :: 0 <= i < |r| ==> r[i] == m(cells[i])
  {
    seq(|cells|, i requires 0 <= i < |cells| => m(cells[i]))
  }

  lemma LoadBoth<V>(m: Memory<Cell, V>, a: seq<Cell>, b: seq<Cell>)
    ensures LoadAll(m, a + b) == LoadAll(m, a) + LoadAll(m, b)
  {
  }

  lemma LoadStripe<V>(m: Memory<Cell, V>, x: seq<V>, base: int, n: nat, lo: nat, h: nat)
    requires h < H && n >= lo + SEG && x == Region(m, base, n)
    ensures LoadAll(m, Range(base + lo + h * D, D)) == Stripe(x, lo, h)
  {
  }

  lemma LoadSeven<V>(m: Memory<Cell, V>, a: seq<Cell>, b: seq<Cell>, c: seq<Cell>, d: seq<Cell>,
                     e: seq<Cell>, f: seq<Cell>, g: seq<Cell>)
    ensures LoadAll(m, Seven(a, b, c, d, e, f, g)) == Seven(LoadAll(m, a), LoadAll(m, b), LoadAll(m, c),
      LoadAll(m, d), LoadAll(m, e), LoadAll(m, f), LoadAll(m, g))
  {
    hide LoadAll;
    LoadBoth(m, a, b);
    LoadBoth(m, a + b, c);
    LoadBoth(m, a + b + c, d);
    LoadBoth(m, a + b + c + d, e);
    LoadBoth(m, a + b + c + d + e, f);
    LoadBoth(m, a + b + c + d + e + f, g);
  }

  lemma LoadPools<V>(m: Memory<Cell, V>, l: nat, h: nat)
    ensures LoadAll(m, Pools(l, h)) == PoolValues(m, l, h)
  {
    hide PoolCell;
  }

  lemma LoadsAreLoadAll<V>(m: Memory<Cell, V>, t: Task<Cell, V>)
    ensures t.Loads(m) == LoadAll(m, t.ins)
  {
  }

  lemma HeadLoads<V>(b: Bodies<V>, l: nat, h: nat, m: Memory<Cell, V>)
    requires h < H
    ensures KdaHead(b, l, h).Loads(m) == HeadInputs(RowsIn(m), m, l, h)
  {
    hide PoolCell, Stripe, Range, Region, LoadAll, Pools, Seven, PoolValues;
    var rows := RowsIn(m);
    LoadsAreLoadAll(m, KdaHead(b, l, h));
    LoadSeven(m, Range(MIXED + h * D, D), Range(MIXED + SEG + h * D, D), Range(MIXED + 2 * SEG + h * D, D),
              Range(FRAW + h * D, D), Range(BRAW + h, 1), Range(GRAW + h * D, D), Pools(l, h));
    LoadStripe(m, rows.mixed, MIXED, CC, 0, h);
    LoadStripe(m, rows.mixed, MIXED, CC, SEG, h);
    LoadStripe(m, rows.mixed, MIXED, CC, 2 * SEG, h);
    LoadStripe(m, rows.fraw, FRAW, SEG, 0, h);
    LoadStripe(m, rows.graw, GRAW, SEG, 0, h);
    LoadPools(m, l, h);
    assert LoadAll(m, Range(BRAW + h, 1)) == [rows.braw[h]];
  }

  lemma KdaCell<V>(b: Bodies<V>, l: nat, m: Memory<Cell, V>, h: nat, k: nat)
    requires h < H && k < 10 * D + D * D
    ensures AfterPhase(b, l, 4, m)(KdaHead(b, l, h).outs[k]) == b.kda(l, h, HeadInputs(RowsIn(m), m, l, h), k)
  {
    hide AfterPhase, PoolCell, HeadInputs, RowsIn;
    assert Calls(b, l, 4)[0][h] == KdaHead(b, l, h);
    PhaseResult(b, l, 4, m, 0, h);
    HeadLoads(b, l, h, m);
  }

  lemma KdaResult<V>(b: Bodies<V>, l: nat, m: Memory<Cell, V>)
    ensures Region(AfterPhase(b, l, 4, m), KDAOUT, SEG) == KdaOut(b, l, RowsIn(m), m)
    ensures forall c: Cell :: !c.Ws? ==> AfterPhase(b, l, 4, m)(c) == KdaPools(b, l, RowsIn(m), m)(c)
  {
    hide AfterPhase, PoolCell, HeadInputs, LayerPool, HeadOf, PlaceOf, RowsIn, Pools;
    var m2 := AfterPhase(b, l, 4, m);
    forall n | 0 <= n < SEG ensures Region(m2, KDAOUT, SEG)[n] == KdaOut(b, l, RowsIn(m), m)[n] {
      DivMod(n, D);
      KdaCell(b, l, m, n / D, n % D);
      assert KdaHead(b, l, n / D).outs[n % D] == Ws(KDAOUT + n);
    }
    forall c: Cell | !c.Ws? ensures m2(c) == KdaPools(b, l, RowsIn(m), m)(c) {
      PoolAfter(b, l, m, c);
    }
  }

  lemma PoolAfter<V>(b: Bodies<V>, l: nat, m: Memory<Cell, V>, c: Cell)
    requires !c.Ws?
    ensures AfterPhase(b, l, 4, m)(c) == KdaPools(b, l, RowsIn(m), m)(c)
  {
    hide AfterPhase, PoolCell, HeadInputs, HeadOf, PlaceOf, RowsIn;
    if LayerPool(c, l) {
      PoolCellOf(c, l);
      var h, k := HeadOf(c), D + PlaceOf(c);
      KdaCell(b, l, m, h, k);
      assert KdaHead(b, l, h).outs[k] == Pools(l, h)[k - D] == c;
    } else {
      PhaseFrame(b, l, 4, m);
    }
  }

  lemma PostLoads<V>(b: Bodies<V>, l: nat, m: Memory<Cell, V>, j: nat)
    requires j < HC
    ensures MhcPost(b, l, j).Loads(m)
      == PostInputs(Region(m, Buffer(l), HC * C), Region(m, BODY, C), Region(m, POSTW, HC), Region(m, COMB, HC * HC), j)
  {
    hide Buffer, LoadAll, Region;
    var t := MhcPost(b, l, j);
    var tail := [Ws(POSTW + j), Ws(COMB + j), Ws(COMB + HC + j), Ws(COMB + 2 * HC + j), Ws(COMB + 3 * HC + j)];
    assert t.ins == Range(Buffer(l), HC * C) + Range(BODY, C) + tail;
    LoadsAreLoadAll(m, t);
    hide Range, MhcPost;
    LoadBoth(m, Range(Buffer(l), HC * C) + Range(BODY, C), tail);
    LoadBoth(m, Range(Buffer(l), HC * C), Range(BODY, C));
    LoadRegion(m, Buffer(l), HC * C);
    LoadRegion(m, BODY, C);
  }

  lemma LoadRegion<V>(m: Memory<Cell, V>, lo: int, n: nat)
    ensures LoadAll(m, Range(lo, n)) == Region(m, lo, n)
  {
  }

  lemma PostCell<V>(b: Bodies<V>, l: nat, m: Memory<Cell, V>, j: nat, k: nat)
    requires j < HC && k < C
    ensures AfterPhase(b, l, 6, m)(Ws(Buffer(l + 1) + j * C + k)) == b.mhcPost(j,
      PostInputs(Region(m, Buffer(l), HC * C), Region(m, BODY, C), Region(m, POSTW, HC), Region(m, COMB, HC * HC), j), k)
  {
    hide AfterPhase, Buffer, PostInputs;
    assert Calls(b, l, 6)[0][j] == MhcPost(b, l, j);
    PhaseResult(b, l, 6, m, 0, j);
    PostLoads(b, l, m, j);
    assert MhcPost(b, l, j).outs[k] == Ws(Buffer(l + 1) + j * C + k);
  }

  lemma PostResult<V>(b: Bodies<V>, l: nat, m: Memory<Cell, V>)
    ensures Region(AfterPhase(b, l, 6, m), Buffer(l + 1), HC * C)
      == Compose(b, Region(m, Buffer(l), HC * C), Region(m, BODY, C), Region(m, POSTW, HC), Region(m, COMB, HC * HC))
  {
    hide AfterPhase, Buffer, PostInputs;
    forall n | 0 <= n < HC * C
      ensures Region(AfterPhase(b, l, 6, m), Buffer(l + 1), HC * C)[n]
        == Compose(b, Region(m, Buffer(l), HC * C), Region(m, BODY, C), Region(m, POSTW, HC), Region(m, COMB, HC * HC))[n]
    {
      DivMod(n, C);
      PostCell(b, l, m, n / C, n % C);
    }
  }

  // ---- One layer -------------------------------------------------------------------

  /** Memory after the first n phases of layer l. */
  function AfterPhases<V>(b: Bodies<V>, l: nat, n: nat, m: Memory<Cell, V>): Memory<Cell, V>
    requires n <= 7
  {
    if n == 0 then m else AfterPhase(b, l, n - 1, AfterPhases(b, l, n - 1, m))
  }

  /** The streams are in layer l's buffer and the pools hold x's values. */
  ghost predicate Holds<V>(m: Memory<Cell, V>, l: nat, x: Spine<V>) {
    Region(m, Buffer(l), HC * C) == x.streams && forall c: Cell :: !c.Ws? && !c.Live? ==> m(c) == x.pools(c)
  }

  /** A phase that does not write a region leaves it as it was. */
  lemma RegionKept<V>(b: Bodies<V>, l: nat, phase: nat, m: Memory<Cell, V>, lo: int, n: nat)
    requires phase < 7 && forall o :: lo <= o < lo + n ==> !Written(l, phase, Ws(o))
    ensures Region(AfterPhase(b, l, phase, m), lo, n) == Region(m, lo, n)
  {
    hide AfterPhase, Written;
    PhaseFrame(b, l, phase, m);
  }

  lemma PoolsKept<V>(b: Bodies<V>, l: nat, phase: nat, m: Memory<Cell, V>)
    requires phase < 7 && phase != 4
    ensures forall c: Cell :: !c.Ws? ==> AfterPhase(b, l, phase, m)(c) == m(c)
  {
    hide AfterPhase;
    PhaseFrame(b, l, phase, m);
  }

  /** What phases 1 and later must find unchanged until the last one. */
  lemma CarriedKept<V>(b: Bodies<V>, l: nat, phase: nat, m: Memory<Cell, V>)
    requires 1 <= phase < 6
    ensures var m2 := AfterPhase(b, l, phase, m);
      && Region(m2, POSTW, HC) == Region(m, POSTW, HC)
      && Region(m2, COMB, HC * HC) == Region(m, COMB, HC * HC)
  {
    hide AfterPhase, Buffer;
    RegionKept(b, l, phase, m, POSTW, HC);
    RegionKept(b, l, phase, m, COMB, HC * HC);
  }

  /** The layer's own stream buffer is read-only for the whole layer. */
  lemma BufferKept<V>(b: Bodies<V>, l: nat, phase: nat, m: Memory<Cell, V>)
    requires phase < 7
    ensures Region(AfterPhase(b, l, phase, m), Buffer(l), HC * C) == Region(m, Buffer(l), HC * C)
  {
    hide AfterPhase;
    PingPong(l);
    RegionKept(b, l, phase, m, Buffer(l), HC * C);
  }

  /** One row map's whole output. */
  lemma RowResult<V>(b: Bodies<V>, l: nat, phase: nat, m: Memory<Cell, V>, c: nat,
                     a: RowMap<V>, f: (nat, seq<V>, nat) -> V)
    requires phase == 1 || phase == 2 || phase == 3 || phase == 5
    requires c < |RowMaps(b, l, phase)| && RowMaps(b, l, phase)[c] == a && a.tile > 0
    requires forall x: seq<V>, i: nat :: a.f(x, i) == f(l, x, i)
    ensures Region(AfterPhase(b, l, phase, m), a.dst, a.count * a.tile)
      == Row(f, l, Region(m, a.src, a.k), a.count * a.tile)
  {
    hide AfterPhase, RowMaps;
    MapResult(b, l, phase, m, c);
  }

  /** Phase 2 (counted from 0): the four projections of the normalised row. */
  lemma Projections<V>(b: Bodies<V>, l: nat, m: Memory<Cell, V>)
    ensures var m2, x := AfterPhase(b, l, 2, m), Region(m, HROW, C);
      && Region(m2, MIXED, CC) == Row(b.qkv, l, x, CC)
      && Region(m2, FMID, D) == Row(b.fa, l, x, D)
      && Region(m2, BRAW, H) == Row(b.bw, l, x, H)
      && Region(m2, GMID, D) == Row(b.ga, l, x, D)
  {
    hide AfterPhase, Row, Region;
    var maps := RowMaps(b, l, 2);
    RowResult(b, l, 2, m, 0, maps[0], b.qkv);
    RowResult(b, l, 2, m, 1, maps[1], b.fa);
    RowResult(b, l, 2, m, 2, maps[2], b.bw);
    RowResult(b, l, 2, m, 3, maps[3], b.ga);
  }

  /** Phase 3: the two chained projections; the other rows stay. */
  lemma Chained<V>(b: Bodies<V>, l: nat, m: Memory<Cell, V>)
    ensures var m2 := AfterPhase(b, l, 3, m);
      && Region(m2, FRAW, SEG) == Row(b.fb, l, Region(m, FMID, D), SEG)
      && Region(m2, GRAW, SEG) == Row(b.gb, l, Region(m, GMID, D), SEG)
      && Region(m2, MIXED, CC) == Region(m, MIXED, CC)
      && Region(m2, BRAW, H) == Region(m, BRAW, H)
  {
    hide AfterPhase, Row, Region;
    var maps := RowMaps(b, l, 3);
    RowResult(b, l, 3, m, 0, maps[0], b.fb);
    RowResult(b, l, 3, m, 1, maps[1], b.gb);
    hide RowMaps;
    RegionKept(b, l, 3, m, MIXED, CC);
    RegionKept(b, l, 3, m, BRAW, H);
  }

  /** After four phases the KDA step's rows are in place. */
  lemma RowsInPlace<V>(b: Bodies<V>, l: nat, m: Memory<Cell, V>)
    ensures RowsIn(AfterPhases(b, l, 4, m)) == LayerRows(b, l, PreMix(b, l, Region(m, Buffer(l), HC * C))[..C])
  {
    hide AfterPhase, Row, Region, PreMix, Buffer;
    var m1 := AfterPhases(b, l, 1, m);
    var m2 := AfterPhases(b, l, 2, m);
    var m3 := AfterPhases(b, l, 3, m);
    assert m1 == AfterPhase(b, l, 0, AfterPhases(b, l, 0, m));
    PreResult(b, l, m);
    assert m2 == AfterPhase(b, l, 1, m1);
    RowResult(b, l, 1, m1, 0, RowMaps(b, l, 1)[0], b.rms);
    assert m3 == AfterPhase(b, l, 2, m2);
    Projections(b, l, m2);
    assert AfterPhases(b, l, 4, m) == AfterPhase(b, l, 3, m3);
    Chained(b, l, m3);
  }

  /** What the pre-mix left for the last phase is still there before it, and so
      is the stream buffer. */
  lemma {:induction false} CarriedThrough<V>(b: Bodies<V>, l: nat, n: nat, m: Memory<Cell, V>)
    requires 1 <= n <= 6
    ensures var mn, pre := AfterPhases(b, l, n, m), PreMix(b, l, Region(m, Buffer(l), HC * C));
      && Region(mn, Buffer(l), HC * C) == Region(m, Buffer(l), HC * C)
      && Region(mn, POSTW, HC) == pre[C..C + HC]
      && Region(mn, COMB, HC * HC) == pre[C + HC..]
  {
    hide AfterPhase, Region, PreMix, Buffer;
    if n == 1 {
      assert AfterPhases(b, l, 0, m) == m;
      PreResult(b, l, m);
      BufferKept(b, l, 0, m);
    } else {
      CarriedThrough(b, l, n - 1, m);
      CarriedKept(b, l, n - 1, AfterPhases(b, l, n - 1, m));
      BufferKept(b, l, n - 1, AfterPhases(b, l, n - 1, m));
    }
  }

  lemma {:induction false} PoolsThrough<V>(b: Bodies<V>, l: nat, from: nat, n: nat, m: Memory<Cell, V>)
    requires from <= n <= 7 && (n <= 4 || 5 <= from)
    ensures forall c: Cell :: !c.Ws? ==> AfterPhases(b, l, n, m)(c) == AfterPhases(b, l, from, m)(c)
  {
    hide AfterPhase;
    if from < n {
      PoolsThrough(b, l, from, n - 1, m);
      PoolsKept(b, l, n - 1, AfterPhases(b, l, n - 1, m));
    }
  }

  lemma SamePools<V>(b: Bodies<V>, l: nat, rows: KdaRows<V>, p: Cell -> V, q: Cell -> V)
    requires rows.Full() && forall c: Cell :: !c.Ws? && !c.Live? ==> p(c) == q(c)
    ensures KdaOut(b, l, rows, p) == KdaOut(b, l, rows, q)
    ensures forall c: Cell :: !c.Ws? && !c.Live? ==> KdaPools(b, l, rows, p)(c) == KdaPools(b, l, rows, q)(c)
  {
    hide HeadOf, PlaceOf;
    forall h: nat | h < H ensures HeadInputs(rows, p, l, h) == HeadInputs(rows, q, l, h) {
      forall i: nat | i < 9 * D + D * D ensures p(PoolCell(l, h, i)) == q(PoolCell(l, h, i)) {
      }
      assert PoolValues(p, l, h) == PoolValues(q, l, h);
    }
    forall c: Cell | LayerPool(c, l) ensures KdaPools(b, l, rows, p)(c) == KdaPools(b, l, rows, q)(c) {
      PoolCellOf(c, l);
    }
    forall n: nat | n < SEG ensures KdaOut(b, l, rows, p)[n] == KdaOut(b, l, rows, q)[n] {
      DivMod(n, D);
    }
  }

  /** The seven phases of layer l, on the shared workspace, compute LayerStep: the
      new streams are in the other buffer, the old ones still in this one, and
      the pools have moved one step. */
  lemma LayerComputed<V>(b: Bodies<V>, l: nat, m: Memory<Cell, V>, x: Spine<V>)
    requires Holds(m, l, x)
    ensures Holds(AfterPhases(b, l, 7, m), l + 1, LayerStep(b, l, x))
    ensures Region(AfterPhases(b, l, 7, m), Buffer(l), HC * C) == x.streams
  {
    hide AfterPhase, Region, PreMix, Buffer, Row, Compose, KdaOut, KdaPools, RowsIn, LayerRows;
    var m4, m5, m6 := AfterPhases(b, l, 4, m), AfterPhases(b, l, 5, m), AfterPhases(b, l, 6, m);
    var pre := PreMix(b, l, x.streams);
    var rows := LayerRows(b, l, pre[..C]);
    RowsInPlace(b, l, m);
    PoolsThrough(b, l, 0, 4, m);
    assert AfterPhases(b, l, 0, m) == m;
    assert m5 == AfterPhase(b, l, 4, m4);
    KdaResult(b, l, m4);
    SamePools(b, l, rows, m4, x.pools);
    assert m6 == AfterPhase(b, l, 5, m5);
    RowResult(b, l, 5, m5, 0, RowMaps(b, l, 5)[0], b.ow);
    CarriedThrough(b, l, 6, m);
    assert AfterPhases(b, l, 7, m) == AfterPhase(b, l, 6, m6);
    PostResult(b, l, m6);
    PoolsThrough(b, l, 5, 7, m);
    BufferKept(b, l, 6, m6);
  }
}
