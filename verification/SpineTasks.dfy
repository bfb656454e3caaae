/** The seven phases of one layer of the spine megakernel as tasks over the
    workspace, and why no phase races with itself. */
module SpineTasks {
  import opened GridCalls
  import opened IntArith
  import opened Tasks

  const C := 4096
  const H := 16
  const D := 128
  const HC := 4
  const SEG := H * D
  const CC := 3 * SEG
  const KW := 3

  // Workspace offsets, in allocation order.
  const ST0 := 0
  const ST1 := ST0 + HC * C
  const HIN := ST1 + HC * C
  const HROW := HIN + C
  const MIXED := HROW + C
  const FMID := MIXED + CC
  const FRAW := FMID + D
  const BRAW := FRAW + SEG
  const GMID := BRAW + H
  const GRAW := GMID + D
  const POSTW := GRAW + SEG
  const COMB := POSTW + HC
  const KDAOUT := COMB + HC * HC
  const BODY := KDAOUT + SEG
  const WS_TOTAL := BODY + C

  /** A cell of the workspace, of the conv pool, of the ssm pool, or of the output. */
  datatype Cell =
    | Ws(off: int)
    | Conv(layer: nat, tap: nat, col: nat)
    | Ssm(layer: nat, head: nat, v: nat, k: nat)
    | Live(off: int)

  /** The arithmetic of each task body: what it stores at place i, from what it
      loaded. The weights of layer l are inside. */
  datatype Bodies<!V> = Bodies(
    mhcPre: (nat, seq<V>, nat) -> V,
    rms: (nat, seq<V>, nat) -> V,
    qkv: (nat, seq<V>, nat) -> V,
    fa: (nat, seq<V>, nat) -> V,
    bw: (nat, seq<V>, nat) -> V,
    ga: (nat, seq<V>, nat) -> V,
    fb: (nat, seq<V>, nat) -> V,
    gb: (nat, seq<V>, nat) -> V,
    kda: (nat, nat, seq<V>, nat) -> V,
    ow: (nat, seq<V>, nat) -> V,
    mhcPost: (nat, seq<V>, nat) -> V,
    zero: V)

  /** The stream buffer layer l reads: the two alternate. */
  function Buffer(l: nat): int { (l % 2) * (HC * C) }

  /** Workspace cells lo, ..., lo + n - 1. */
  function Range(lo: int, n: nat): (r: seq<Cell>)
    ensures |r| == n && forall i :: 0 <= i < n ==> r[i] == Ws(lo + i)
    ensures forall c :: c in r ==> c.Ws? && lo <= c.off < lo + n
  {
    seq(n, i => Ws(lo + i))
  }

  /** A GEMV (or any row map): k inputs at src, count tiles of outputs at dst. */
  datatype RowMap<!V> = RowMap(src: int, k: nat, dst: int, tile: nat, count: nat, f: (seq<V>, nat) -> V)
  {
    function End(): int { dst + count * tile }

    /** Task t computes outputs t * tile, ..., t * tile + tile - 1. */
    function TileTask(t: nat): Task<Cell, V> {
      Task(Range(src, k), Range(dst + t * tile, tile), (x: seq<V>, i: nat) => f(x, t * tile + i))
    }

    function TileTasks(): (r: seq<Task<Cell, V>>)
      ensures |r| == count && forall t :: 0 <= t < count ==> r[t] == TileTask(t)
    {
      seq(count, t requires 0 <= t < count => TileTask(t))
    }
  }

  function AllTasks<V>(maps: seq<RowMap<V>>): (r: seq<seq<Task<Cell, V>>>)
    ensures |r| == |maps| && forall c :: 0 <= c < |r| ==> r[c] == maps[c].TileTasks()
  {
    seq(|maps|, c requires 0 <= c < |maps| => maps[c].TileTasks())
  }

  function MhcPre<V>(b: Bodies<V>, l: nat): Task<Cell, V> {
    Task(Range(Buffer(l), HC * C), Range(HIN, C) + Range(POSTW, HC + HC * HC),
         (x: seq<V>, i: nat) => b.mhcPre(l, x, i))
  }

  /** Place i of head h's pool cells: the q, k and v stripes of each tap row, then
      its [V, K] state slice. */
  function PoolCell(l: nat, h: nat, i: nat): Cell {
    if i < 9 * D then Conv(l, i / (3 * D), i % (3 * D) / D * SEG + h * D + i % D)
    else Ssm(l, h, (i - 9 * D) / D, (i - 9 * D) % D)
  }

  /** The head whose stripe or slice a pool cell is in, and its place there. */
  function HeadOf(c: Cell): int
    requires c.Conv? || c.Ssm?
  {
    if c.Conv? then c.col % SEG / D else c.head
  }

  function PlaceOf(c: Cell): int
    requires c.Conv? || c.Ssm?
  {
    if c.Conv? then c.tap * (3 * D) + c.col / SEG * D + c.col % D else 9 * D + c.v * D + c.k
  }

  lemma HeadColumn(g: nat, h: nat, d: nat)
    requires h < H && d < D
    ensures var col := g * SEG + h * D + d; col / SEG == g && col % SEG / D == h && col % D == d
  {
    var col := g * SEG + h * D + d;
    DivUnique(col, SEG, g);
    DivUnique(h * D + d, D, h);
    DivUnique(col, D, g * H + h);
  }

  lemma PlaceParts(i: nat)
    ensures var g := i % (3 * D) / D;
      g < 3 && i == i / (3 * D) * (3 * D) + g * D + i % D
  {
    DivMod(i, 3 * D);
    var r := i % (3 * D);
    DivMod(r, D);
    DivUnique(i, D, i / (3 * D) * 3 + r / D);
  }

  lemma PoolCellPlace(l: nat, h: nat, i: nat)
    requires h < H && i < 9 * D + D * D
    ensures var c := PoolCell(l, h, i); (c.Conv? || c.Ssm?) && HeadOf(c) == h && PlaceOf(c) == i
  {
    if i < 9 * D {
      PlaceParts(i);
      HeadColumn(i % (3 * D) / D, h, i % D);
    } else {
      DivMod(i - 9 * D, D);
    }
  }

  /** The pool cells head h reads and rewrites in place. */
  function Pools(l: nat, h: nat): (r: seq<Cell>)
    ensures |r| == 9 * D + D * D && forall i :: 0 <= i < |r| ==> r[i] == PoolCell(l, h, i)
  {
    seq(9 * D + D * D, i requires 0 <= i => PoolCell(l, h, i))
  }

  function Seven<T>(a: seq<T>, b: seq<T>, c: seq<T>, d: seq<T>, e: seq<T>, f: seq<T>, g: seq<T>): seq<T> {
    a + b + c + d + e + f + g
  }

  function KdaHead<V>(b: Bodies<V>, l: nat, h: nat): Task<Cell, V> {
    Task(Seven(Range(MIXED + h * D, D), Range(MIXED + SEG + h * D, D), Range(MIXED + 2 * SEG + h * D, D),
               Range(FRAW + h * D, D), Range(BRAW + h, 1), Range(GRAW + h * D, D), Pools(l, h)),
         Range(KDAOUT + h * D, D) + Pools(l, h),
         (x: seq<V>, i: nat) => b.kda(l, h, x, i))
  }

  function MhcPost<V>(b: Bodies<V>, l: nat, j: nat): Task<Cell, V> {
    Task(Range(Buffer(l), HC * C) + Range(BODY, C) + Range(POSTW + j, 1) + Range(COMB + j, 1)
         + Range(COMB + HC + j, 1) + Range(COMB + 2 * HC + j, 1) + Range(COMB + 3 * HC + j, 1),
         Range(Buffer(l + 1) + j * C, C),
         (x: seq<V>, i: nat) => b.mhcPost(j, x, i))
  }

  /** The row maps of phases 2 (after mHC pre-mix), 3, 4 and 6, counted from 0. */
  function RowMaps<V>(b: Bodies<V>, l: nat, phase: nat): seq<RowMap<V>> {
    if phase == 1 then
      [RowMap(HIN, C, HROW, C, 1, (x: seq<V>, i: nat) => b.rms(l, x, i))]
    else if phase == 2 then
      [RowMap(HROW, C, MIXED, 64, CC / 64, (x: seq<V>, i: nat) => b.qkv(l, x, i)),
       RowMap(HROW, C, FMID, 64, D / 64, (x: seq<V>, i: nat) => b.fa(l, x, i)),
       RowMap(HROW, C, BRAW, 16, H / 16, (x: seq<V>, i: nat) => b.bw(l, x, i)),
       RowMap(HROW, C, GMID, 64, D / 64, (x: seq<V>, i: nat) => b.ga(l, x, i))]
    else if phase == 3 then
      [RowMap(FMID, D, FRAW, 64, SEG / 64, (x: seq<V>, i: nat) => b.fb(l, x, i)),
       RowMap(GMID, D, GRAW, 64, SEG / 64, (x: seq<V>, i: nat) => b.gb(l, x, i))]
    else if phase == 5 then
      [RowMap(KDAOUT, SEG, BODY, 64, C / 64, (x: seq<V>, i: nat) => b.ow(l, x, i))]
    else []
  }

  /** The calls of phase `phase` of layer l: each a list of tasks dealt out from worker 0. */
  function Calls<V>(b: Bodies<V>, l: nat, phase: nat): seq<seq<Task<Cell, V>>>
    requires phase < 7
  {
    if phase == 0 then [[MhcPre(b, l)]]
    else if phase == 4 then [seq(H, h requires 0 <= h < H => KdaHead(b, l, h))]
    else if phase == 6 then [seq(HC, j requires 0 <= j < HC => MhcPost(b, l, j))]
    else AllTasks(RowMaps(b, l, phase))
  }

  /** The last block, after the loop: copy the live buffer out, 1024 cells a task. */
  function Copy<V>(b: Bodies<V>, l: nat, t: nat): Task<Cell, V> {
    Task(Range(Buffer(l) + t * 1024, 1024), seq(1024, i requires 0 <= i < 1024 => Live(t * 1024 + i)),
         (x: seq<V>, i: nat) => if i < |x| then x[i] else b.zero)
  }

  function Copies<V>(b: Bodies<V>, l: nat): seq<Task<Cell, V>> {
    seq(HC * C / 1024, t requires 0 <= t < HC * C / 1024 => Copy(b, l, t))
  }

  // ---- No phase races with itself --------------------------------------------------

  /** The workspace cells a, ..., b - 1 and c, ..., d - 1 have none in common. */
  predicate Clear(a: int, b: int, c: int, d: int) { b <= c || d <= a }

  lemma TileBounds(tile: nat, t: nat, count: nat)
    requires t < count
    ensures 0 <= t * tile && t * tile + tile <= count * tile
  {
    BlockFits(t, count, tile);
    MulMono(0, t, tile);
  }

  /** a's outputs are neither inputs nor outputs of b. */
  ghost predicate MapsApart<V>(a: RowMap<V>, b: RowMap<V>) {
    Clear(a.dst, a.End(), b.src, b.src + b.k) && Clear(a.dst, a.End(), b.dst, b.End())
  }

  lemma MapsAllApart<V>(a: RowMap<V>, b: RowMap<V>)
    requires MapsApart(a, b)
    ensures AllApart(a.TileTasks(), b.TileTasks())
  {
    forall i, j | 0 <= i < a.count && 0 <= j < b.count ensures Apart(a.TileTask(i), b.TileTask(j)) {
      TileBounds(a.tile, i, a.count);
      TileBounds(b.tile, j, b.count);
    }
  }

  lemma MapRaceFree<V>(a: RowMap<V>)
    requires Clear(a.dst, a.End(), a.src, a.src + a.k)
    ensures RaceFree(a.TileTasks())
  {
    forall i, j | 0 <= i < a.count && 0 <= j < a.count && i != j ensures Apart(a.TileTask(i), a.TileTask(j)) {
      TileBounds(a.tile, i, a.count);
      TileBounds(a.tile, j, a.count);
      if i < j { BlockFits(i, j, a.tile); } else { BlockFits(j, i, a.tile); }
    }
  }

  lemma MapsCallsApart<V>(maps: seq<RowMap<V>>)
    requires forall c :: 0 <= c < |maps| ==> Clear(maps[c].dst, maps[c].End(), maps[c].src, maps[c].src + maps[c].k)
    requires forall c, d :: 0 <= c < |maps| && 0 <= d < |maps| && c != d ==> MapsApart(maps[c], maps[d])
    ensures CallsApart(AllTasks(maps))
  {
    hide RaceFree, AllApart;
    forall c | 0 <= c < |maps| ensures RaceFree(AllTasks(maps)[c]) {
      MapRaceFree(maps[c]);
    }
    forall c, d | 0 <= c < |maps| && 0 <= d < |maps| && c != d ensures AllApart(AllTasks(maps)[c], AllTasks(maps)[d]) {
      MapsAllApart(maps[c], maps[d]);
    }
  }

  lemma InPools(l: nat, h: nat, c: Cell)
    requires h < H && c in Pools(l, h)
    ensures (c.Conv? || c.Ssm?) && HeadOf(c) == h
  {
    hide PoolCell, HeadOf, PlaceOf;
    var i :| 0 <= i < |Pools(l, h)| && Pools(l, h)[i] == c;
    PoolCellPlace(l, h, i);
  }

  lemma KdaDistinct<V>(b: Bodies<V>, l: nat, h: nat)
    requires h < H
    ensures KdaHead(b, l, h).Distinct()
  {
    hide PoolCell, HeadOf, PlaceOf;
    var outs := KdaHead(b, l, h).outs;
    forall i, k | 0 <= i < k < |outs| ensures outs[i] != outs[k] {
      if i < D && k < D {
        assert outs[i] == Ws(KDAOUT + h * D + i) && outs[k] == Ws(KDAOUT + h * D + k);
      } else {
        assert outs[k] == Pools(l, h)[k - D];
        PoolCellPlace(l, h, k - D);
        if i >= D { PoolCellPlace(l, h, i - D); }
      }
    }
  }

  lemma KdaApart<V>(b: Bodies<V>, l: nat, h: nat, h2: nat)
    requires h < H && h2 < H && h != h2
    ensures Apart(KdaHead(b, l, h), KdaHead(b, l, h2))
  {
    hide PoolCell, HeadOf, PlaceOf;
    var t, u := KdaHead(b, l, h), KdaHead(b, l, h2);
    forall k | 0 <= k < |t.outs| ensures t.outs[k] !in u.ins && t.outs[k] !in u.outs {
      var c := t.outs[k];
      if k < D {
        assert c == Ws(KDAOUT + h * D + k);
        if c in Pools(l, h2) { InPools(l, h2, c); }
      } else {
        assert c == Pools(l, h)[k - D];
        InPools(l, h, c);
        if c in Pools(l, h2) { InPools(l, h2, c); }
      }
    }
  }

  lemma PreDistinct<V>(b: Bodies<V>, l: nat)
    ensures MhcPre(b, l).Distinct()
  {
    var outs := MhcPre(b, l).outs;
    forall i, k | 0 <= i < k < |outs| ensures outs[i] != outs[k] {
      assert outs[k] == if k < C then Ws(HIN + k) else Ws(POSTW + (k - C));
      assert outs[i] == if i < C then Ws(HIN + i) else Ws(POSTW + (i - C));
    }
  }

  /** The two stream buffers alternate and do not overlap. */
  lemma PingPong(l: nat)
    ensures Buffer(l + 2) == Buffer(l)
    ensures {Buffer(l), Buffer(l + 1)} == {ST0, ST1} && Buffer(l) != Buffer(l + 1)
  {
    assert l % 2 == 0 || l % 2 == 1;
    assert (l + 1) % 2 == 1 - l % 2;
  }

  /** Each row of the other buffer is one task's; this layer's buffer is only read. */
  lemma PostApart<V>(b: Bodies<V>, l: nat, i: nat, j: nat)
    requires i < HC && j < HC && i != j
    ensures Apart(MhcPost(b, l, i), MhcPost(b, l, j))
  {
    PingPong(l);
    hide Buffer;
    var cur, nxt := Buffer(l), Buffer(l + 1);
    forall k | 0 <= k < C
      ensures MhcPost(b, l, i).outs[k] !in MhcPost(b, l, j).ins
      ensures MhcPost(b, l, i).outs[k] !in MhcPost(b, l, j).outs
    {
      assert MhcPost(b, l, i).outs[k] == Ws(nxt + i * C + k);
      assert 0 <= i * C <= 3 * C;
      if i < j { assert i * C + C <= j * C; } else { assert j * C + C <= i * C; }
    }
  }

  lemma HeadsRaceFree<V>(b: Bodies<V>, l: nat)
    ensures RaceFree(Calls(b, l, 4)[0])
  {
    hide Apart;
    var heads: seq<Task<Cell, V>> := Calls(b, l, 4)[0];
    forall h | 0 <= h < |heads| ensures heads[h].Distinct() {
      KdaDistinct(b, l, h);
    }
    forall h, i | 0 <= h < |heads| && 0 <= i < |heads| && h != i ensures Apart(heads[h], heads[i]) {
      KdaApart(b, l, h, i);
    }
  }

  lemma PostDistinct<V>(b: Bodies<V>, l: nat, j: nat)
    ensures MhcPost(b, l, j).Distinct()
  {
  }

  lemma RowsRaceFree<V>(b: Bodies<V>, l: nat)
    ensures RaceFree(Calls(b, l, 6)[0])
  {
    hide Apart, MhcPost;
    var rows: seq<Task<Cell, V>> := Calls(b, l, 6)[0];
    forall j | 0 <= j < |rows| ensures rows[j].Distinct() {
      PostDistinct(b, l, j);
    }
    forall i, j | 0 <= i < |rows| && 0 <= j < |rows| && i != j ensures Apart(rows[i], rows[j]) {
      PostApart(b, l, i, j);
    }
  }

  lemma RowMapsApart<V>(b: Bodies<V>, l: nat, phase: nat)
    ensures CallsApart(AllTasks(RowMaps(b, l, phase)))
  {
    hide CallsApart;
    MapsCallsApart(RowMaps(b, l, phase));
  }

  /** No phase of any layer has a race, within a call or between its calls. */
  lemma PhaseRaceFree<V>(b: Bodies<V>, l: nat, phase: nat)
    requires phase < 7
    ensures RaceFree(Flat(Calls(b, l, phase)))
  {
    hide Apart, MhcPost, MhcPre, KdaHead, RowMaps, AllTasks;
    var calls: seq<seq<Task<Cell, V>>> := Calls(b, l, phase);
    if phase == 0 {
      PreDistinct(b, l);
    } else if phase == 4 {
      HeadsRaceFree(b, l);
    } else if phase == 6 {
      RowsRaceFree(b, l);
    } else {
      RowMapsApart(b, l, phase);
    }
    FlatRaceFree(calls);
  }

  lemma CopyRaceFree<V>(b: Bodies<V>, l: nat)
    ensures RaceFree(Copies(b, l))
  {
  }
}
