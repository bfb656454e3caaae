/** The distributed stages walk the aligned layout in blocks of 16 rows, whatever
    block size it was aligned to: what they then see, and when that is the layout. */
module MoeBlocks {
  import opened IntArith
  import opened MoeAlign
  import opened MoeSpec
  import opened MoeWeights
  import opened RealArith
  import opened Sums

  /** The 16-row blocks the stages walk: EM // 16. */
  function StageBlocks(ids: seq<int>, count: nat, bs: nat): nat
    requires bs > 0
  {
    QuotientNat(|SortedIds(ids, count, bs)|, BLOCK_M);
    |SortedIds(ids, count, bs)| / BLOCK_M
  }

  /** expert_ids has an entry for every one of them; else the stages index past its end. */
  predicate Covered(ids: seq<int>, count: nat, bs: nat)
    requires bs > 0
  {
    StageBlocks(ids, count, bs) <= |ExpertIds(ids, count, bs)|
  }

  /** The rows the stages visit, with the expert each 16-row block is given, as far
      as expert_ids goes. */
  function StageRows(ids: seq<int>, count: nat, w: Vec, topK: nat, bs: nat): Routing
    requires bs > 0
  {
    var n: nat := Least(StageBlocks(ids, count, bs), |ExpertIds(ids, count, bs)|);
    DivMod(|SortedIds(ids, count, bs)|, BLOCK_M);
    var rows := SortedIds(ids, count, bs)[..BLOCK_M * n];
    Routing(rows, ExpertIds(ids, count, bs)[..n],
            seq(|rows|, p requires 0 <= p < |rows| => if 0 <= rows[p] < |ids| then w(rows[p]) else 0.0), topK, |ids|)
  }

  lemma StageRowsGood(ids: seq<int>, count: nat, w: Vec, topK: nat, m: nat, bs: nat)
    requires bs > 0 && |ids| == RowStart(m, topK)
    ensures StageRows(ids, count, w, topK, bs).Good(count, m)
  {
    var r := StageRows(ids, count, w, topK, bs);
    DivMod(|SortedIds(ids, count, bs)|, BLOCK_M);
    forall p: nat | p < |r.rows| ensures 0 <= r.rows[p] {
      RowsOk(ids, count, bs, p);
    }
    forall b: nat | b < |r.owners| ensures -1 <= r.owners[b] < count {
      BlockHasRow(ids, count, bs, b);
      OwnersBelow(ids, count, bs, b);
    }
    hide SortedIds, ExpertIds;
  }

  /** Row p of the walk is row p of the layout, given to the expert of entry p / 16 of
      expert_ids, with its own routing weight; whole 16-row blocks, as far as both go. */
  lemma VisitedRow(ids: seq<int>, count: nat, w: Vec, topK: nat, bs: nat, p: nat)
    requires bs > 0
    ensures var rows, owners, r := SortedIds(ids, count, bs), ExpertIds(ids, count, bs), StageRows(ids, count, w, topK, bs);
      && (p < |r.rows| <==> 0 <= p / 16 < |rows| / 16 && p / 16 < |owners|)
      && (p < |r.rows| ==>
        && p < |rows| && |r.weights| == |r.rows| && r.rows[p] == rows[p] && r.Owner(p) == owners[p / 16]
        && r.weights[p] == if 0 <= rows[p] < |ids| then w(rows[p]) else 0.0)
  {
    hide SortedIds, ExpertIds;
    DivMod(|SortedIds(ids, count, bs)|, BLOCK_M);
    DivMod(p, BLOCK_M);
    QuotientNat(p, BLOCK_M);
  }

  /** Aligned to 16 rows, the stages see the layout itself. */
  lemma SixteenRows(ids: seq<int>, count: nat, w: Vec, topK: nat)
    ensures Covered(ids, count, BLOCK_M) && StageRows(ids, count, w, topK, BLOCK_M) == Aligned(ids, count, w, topK)
  {
    hide SortedIds, ExpertIds;
    var e := |ExpertIds(ids, count, BLOCK_M)|;
    SortedLength(ids, count, BLOCK_M);
    DivUnique(e * BLOCK_M, BLOCK_M, e);
    assert SortedIds(ids, count, BLOCK_M)[..BLOCK_M * e] == SortedIds(ids, count, BLOCK_M);
    assert ExpertIds(ids, count, BLOCK_M)[..e] == ExpertIds(ids, count, BLOCK_M);
  }

  datatype Walk = Rows(routing: Routing) | BadBlockSize | BlockPastEnd

  /** The aligned layout as the stages walk it, or the error they raise. */
  method StageLayout(ids: seq<int>, count: nat, w: Vec, topK: nat, m: nat, bs: int) returns (r: Walk)
    requires |ids| == RowStart(m, topK)
    ensures r.BadBlockSize? <==> bs <= 0
    ensures r.BlockPastEnd? <==> bs > 0 && !Covered(ids, count, bs)
    ensures r.Rows? ==> r.routing == StageRows(ids, count, w, topK, bs) && r.routing.Good(count, m)
  {
    hide SortedIds, ExpertIds;
    var layout := Align(ids, m, topK, bs, count);
    if layout.BadBlock? { return BadBlockSize; }
    var n := |layout.value.0| / BLOCK_M;
    DivMod(|layout.value.0|, BLOCK_M);
    if n > |layout.value.1| { return BlockPastEnd; }
    var rows := layout.value.0[..BLOCK_M * n];
    var weights := seq(|rows|, p requires 0 <= p < |rows| => if 0 <= rows[p] < |ids| then w(rows[p]) else 0.0);
    r := Rows(Routing(rows, layout.value.1[..n], weights, topK, |ids|));
    StageRowsGood(ids, count, w, topK, m, bs);
  }

  // ---- Any other block size ------------------------------------------------------------

  /** One routed index fills at most one block. */
  lemma {:induction false} OneBlock(ids: seq<int>, count: nat, bs: nat)
    requires bs > 0 && |ids| == 1
    ensures |SortedIds(ids, count, bs)| == if 0 <= ids[0] < count then bs else 0
  {
    if count > 0 {
      OneBlock(ids, count - 1, bs);
      OneChunk(ids, count - 1, bs);
      SortedGrows(ids, count, bs);
      hide SortedIds, Chunk;
    }
  }

  lemma OneChunk(ids: seq<int>, e: nat, bs: nat)
    requires bs > 0 && |ids| == 1
    ensures |Chunk(ids, e, bs)| == if ids[0] == e then bs else 0
  {
    assert |PerExpert(ids, e, 0)| == 0;
    assert |PerExpert(ids, e, 1)| == if ids[0] == e then 1 else 0;
    OnePadded(bs);
    hide PerExpert, Chunk, Padded;
  }

  lemma OnePadded(bs: nat)
    requires bs > 0
    ensures Padded(0, bs) == 0 && Padded(1, bs) == bs
  {
    DivUnique(1 + bs - 1, bs, 1);
    DivUnique(0 + bs - 1, bs, 0);
  }

  lemma SortedGrows(ids: seq<int>, count: nat, bs: nat)
    requires bs > 0 && count > 0
    ensures |SortedIds(ids, count, bs)| == |SortedIds(ids, count - 1, bs)| + |Chunk(ids, count - 1, bs)|
  {
    hide Chunk;
  }

  /** Smaller blocks: a single routed index is never visited. */
  lemma SmallBlocks(ids: seq<int>, count: nat, w: Vec, topK: nat, bs: nat)
    requires 0 < bs < BLOCK_M && |ids| == 1
    ensures Covered(ids, count, bs) && StageRows(ids, count, w, topK, bs).rows == []
  {
    OneBlock(ids, count, bs);
    DivUnique(|SortedIds(ids, count, bs)|, BLOCK_M, 0);
    hide SortedIds, ExpertIds;
  }

  function Repeat(n: nat): (ids: seq<int>)
    ensures |ids| == n && forall i :: 0 <= i < n ==> ids[i] == 0
  {
    seq(n, _ => 0)
  }

  lemma {:induction false} AllFirst(ids: seq<int>, n: nat)
    requires n <= |ids| && forall i :: 0 <= i < |ids| ==> ids[i] == 0
    ensures |PerExpert(ids, 0, n)| == n
  {
    if n > 0 { AllFirst(ids, n - 1); }
  }

  lemma {:induction false} AtLeastFirst(ids: seq<int>, count: nat, bs: nat)
    requires bs > 0 && count > 0 && forall i :: 0 <= i < |ids| ==> ids[i] == 0
    ensures |SortedIds(ids, count, bs)| >= |ids|
  {
    SortedGrows(ids, count, bs);
    if count > 1 {
      AtLeastFirst(ids, count - 1, bs);
    } else {
      AllFirst(ids, |ids|);
    }
    hide SortedIds, PerExpert;
  }

  /** Larger blocks: with 16 blocks' worth of rows the stages run past expert_ids. */
  lemma LargeBlocks(count: nat, bs: nat)
    requires bs > BLOCK_M && count > 0
    ensures !Covered(Repeat(BLOCK_M * bs), count, bs)
  {
    var ids := Repeat(BLOCK_M * bs);
    hide SortedIds, ExpertIds;
    var e, n := |ExpertIds(ids, count, bs)|, |SortedIds(ids, count, bs)|;
    AtLeastFirst(ids, count, bs);
    Lengths(ids, count, bs);
    if e < BLOCK_M { BlockFits(e, BLOCK_M, bs); }
    assert e >= BLOCK_M;
    MulMono(BLOCK_M + 1, bs, e);
    MulCommute(e, bs);
    DivMod(n, BLOCK_M);
  }

  // ---- The block sizes that give the routed sum -----------------------------------------

  function WithBias(x: Experts, b2: Mat): (y: Experts)
    ensures y.count == x.count && y.hidden == x.hidden
  {
    x.(b2 := b2)
  }

  /** On this input the stages finish and combine to the routed sum. */
  ghost predicate WalksRight(x: Experts, ids: seq<int>, w: Vec, topK: nat, m: nat, a: Mat, bs: nat)
    requires bs > 0
  {
    && Covered(ids, x.count, bs)
    && forall t, c :: 0 <= t < m && 0 <= c < x.hidden ==>
      Combined(x, StageRows(ids, x.count, w, topK, bs), a, t, c) == MoeOut(x, ids, w, topK, a, t, c)
  }

  lemma SixteenRight(x: Experts, ids: seq<int>, w: Vec, topK: nat, m: nat, a: Mat)
    requires |ids| == RowStart(m, topK)
    ensures WalksRight(x, ids, w, topK, m, a, BLOCK_M)
  {
    hide Covered, StageRows, Combined, MoeOut, Aligned;
    SixteenRows(ids, x.count, w, topK);
    forall t, c | 0 <= t < m && 0 <= c < x.hidden
      ensures Combined(x, StageRows(ids, x.count, w, topK, BLOCK_M), a, t, c) == MoeOut(x, ids, w, topK, a, t, c)
    {
      AlignedMeansRouted(x, ids, w, topK, m, a, t, c);
    }
  }

  function NoInput(): Mat { (_, _) => 0.0 }

  /** A down bias that makes expert 0's first output 1. */
  function ToOne(x: Experts, v: Vec): Mat { (_, _) => 1.0 - x.Down(0, x.ActVec(0, v), 0) }

  lemma BiasGateUp(x: Experts, b2: Mat, v: Vec, n: int)
    ensures WithBias(x, b2).GateUp(0, v, n) == x.GateUp(0, v, n)
  {
    var g, h := WithBias(x, b2).W13Row(0, n), x.W13Row(0, n);
    hide Dot;
    assert forall c: int :: g(c) == h(c);
    DotCongr(0, x.hidden, v, g, v, h);
  }

  lemma BiasActivated(x: Experts, b2: Mat, gate: real, up: real, n: int)
    ensures WithBias(x, b2).ispp == x.ispp && WithBias(x, b2).Activated(0, gate, up, n) == x.Activated(0, gate, up, n)
  {
  }

  lemma BiasAct(x: Experts, b2: Mat, v: Vec, n: int)
    ensures WithBias(x, b2).ActVec(0, v)(n) == x.ActVec(0, v)(n)
  {
    var y := WithBias(x, b2);
    hide Experts.GateUp, Experts.Activated, Experts.ActVec, WithBias;
    BiasActivated(x, b2, x.GateUp(0, v, n), x.GateUp(0, v, n + x.ispp), n);
    ActVecAt(y, 0, v, n);
    ActVecAt(x, 0, v, n);
    BiasGateUp(x, b2, v, n);
    BiasGateUp(x, b2, v, n + x.ispp);
  }

  lemma BiasDown(x: Experts, b2: Mat, v: Vec)
    ensures WithBias(x, b2).Down(0, WithBias(x, b2).ActVec(0, v), 0) == x.Down(0, x.ActVec(0, v), 0)
  {
    var y := WithBias(x, b2);
    var f, g, p, q := y.ActVec(0, v), x.ActVec(0, v), y.W2Row(0, 0), x.W2Row(0, 0);
    hide Dot, Experts.ActVec;
    assert forall c: int :: p(c) == q(c);
    forall n: int ensures f(n) == g(n) { BiasAct(x, b2, v, n); }
    DotCongr(0, x.ispp, f, p, g, q);
  }

  lemma OneOutput(x: Experts, v: Vec)
    ensures WithBias(x, ToOne(x, v)).Output(0, v, 0) == 1.0
  {
    hide Dot, Experts.Down, Experts.ActVec;
    BiasDown(x, ToOne(x, v), v);
  }

  /** Smaller blocks lose a single token whose output is 1. */
  lemma SmallWrong(x: Experts, a: Mat, bs: nat)
    requires 0 < bs < BLOCK_M && x.count > 0 && x.hidden > 0
    ensures !WalksRight(WithBias(x, ToOne(x, Row(a, 0))), [0], Ones(), 1, 1, a, bs)
  {
    var y := WithBias(x, ToOne(x, Row(a, 0)));
    SmallBlocks([0], x.count, Ones(), 1, bs);
    OneOutput(x, Row(a, 0));
    OneToken(y, [0], a);
    hide StageRows, Experts.Output, ToOne, MoeOut, WithBias;
    assert Combined(y, StageRows([0], x.count, Ones(), 1, bs), a, 0, 0) == 0.0;
  }

  lemma OneColumn(m: nat)
    ensures RowStart(m, 1) == m
  {
  }

  /** Whatever the weights, the stages give the routed sum for all biases and inputs
      exactly at block size 16. */
  lemma BlockSizeIff(x: Experts, bs: nat)
    requires x.count > 0 && x.hidden > 0 && bs > 0
    ensures (forall b2: Mat, ids: seq<int>, w: Vec, topK: nat, m: nat, a: Mat ::
      |ids| == RowStart(m, topK) ==> WalksRight(WithBias(x, b2), ids, w, topK, m, a, bs)) <==> bs == BLOCK_M
  {
    hide WithBias, WalksRight, ToOne, RowStart;
    if bs == BLOCK_M {
      forall b2: Mat, ids: seq<int>, w: Vec, topK: nat, m: nat, a: Mat | |ids| == RowStart(m, topK)
        ensures WalksRight(WithBias(x, b2), ids, w, topK, m, a, bs)
      {
        SixteenRight(WithBias(x, b2), ids, w, topK, m, a);
      }
    } else {
      var b2, ids, m := OtherWrong(x, bs);
      assert RowStart(m, 1) == m by { OneColumn(m); }
      assert !WalksRight(WithBias(x, b2), ids, Ones(), 1, m, NoInput(), bs);
    }
  }

  lemma OtherWrong(x: Experts, bs: nat) returns (b2: Mat, ids: seq<int>, m: nat)
    requires x.count > 0 && x.hidden > 0 && bs > 0 && bs != BLOCK_M
    ensures |ids| == m && !WalksRight(WithBias(x, b2), ids, Ones(), 1, m, NoInput(), bs)
  {
    if bs < BLOCK_M {
      b2, ids, m := ToOne(x, Row(NoInput(), 0)), [0], 1;
      SmallWrong(x, NoInput(), bs);
    } else {
      b2, ids := NoInput(), Repeat(BLOCK_M * bs);
      m := |ids|;
      hide Covered, StageRows, Combined, MoeOut, Repeat;
      LargeBlocks(x.count, bs);
    }
  }
}
