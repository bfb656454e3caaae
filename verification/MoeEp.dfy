/** Expert parallelism: ranks own consecutive ranges of experts, mask the routing to
    their own, run the whole forward locally, and their outputs add up. */
module MoeEp {
  import opened IntArith
  import opened MoeAlign
  import opened MoeBlocks
  import opened MoeFused
  import opened MoeGates
  import opened MoeSpec
  import opened MoeTiles
  import opened MoeStages
  import opened MoeWeights
  import opened RealArith
  import opened Sums

  // ---- ep_plan -------------------------------------------------------------------------

  datatype Owned = Owned(begin: nat, end: nat) | BadEp | BadRank | TooFewExperts

  /** The first expert of rank r: the first `rem` ranks hold one expert more. */
  function Boundary(experts: nat, ep: nat, r: nat): nat
    requires ep > 0
  {
    DivMod(experts, ep);
    QuotientNat(experts, ep);
    MulMono(0, r, experts / ep);
    r * (experts / ep) + if r < experts % ep then r else experts % ep
  }

  function EpPlan(experts: nat, ep: int, rank: int): Owned {
    if ep <= 0 then BadEp
    else if rank < 0 || rank >= ep then BadRank
    else if experts < ep then TooFewExperts
    else
      var begin := Boundary(experts, ep, rank);
      QuotientNat(experts, ep);
      Owned(begin, begin + experts / ep + if rank < experts % ep then 1 else 0)
  }

  /** The ranges are consecutive, start at 0, end at the last expert, and their
      sizes differ by at most one, the larger ones first. */
  lemma PlanRanges(experts: nat, ep: nat, rank: nat)
    requires rank < ep
    ensures Boundary(experts, ep, 0) == 0 && Boundary(experts, ep, ep) == experts
    ensures EpPlan(experts, ep, rank).Owned? <==> experts >= ep
    ensures experts >= ep ==>
      var plan := EpPlan(experts, ep, rank);
      && plan.begin == Boundary(experts, ep, rank) && plan.end == Boundary(experts, ep, rank + 1)
      && 0 < experts / ep <= plan.end - plan.begin <= experts / ep + 1
      && (plan.end - plan.begin == experts / ep + 1 <==> rank < experts % ep)
  {
    DivMod(experts, ep);
    MulSucc(rank, experts / ep);
    MulCommute(ep, experts / ep);
    if experts >= ep && experts / ep <= 0 { MulMono(experts / ep, 0, ep); }
  }

  /** The three errors, in the order they are raised. */
  lemma PlanErrors(experts: nat, ep: int, rank: int)
    ensures EpPlan(experts, ep, rank) == BadEp <==> ep <= 0
    ensures EpPlan(experts, ep, rank) == BadRank <==> ep > 0 && !(0 <= rank < ep)
    ensures EpPlan(experts, ep, rank) == TooFewExperts <==> 0 <= rank < ep && experts < ep
  {
  }

  lemma {:induction false} BoundaryMono(experts: nat, ep: nat, r: nat, s: nat)
    requires 0 < ep && r <= s <= ep
    ensures Boundary(experts, ep, r) <= Boundary(experts, ep, s)
    decreases s
  {
    if r < s {
      BoundaryMono(experts, ep, r, s - 1);
      QuotientNat(experts, ep);
      MulSucc(s - 1, experts / ep);
    }
  }

  predicate Owns(experts: nat, ep: int, rank: int, e: int) {
    var plan := EpPlan(experts, ep, rank);
    plan.Owned? && plan.begin <= e < plan.end
  }

  /** Every expert is some rank's, and no other's, under an in-range local id. */
  lemma OwnedByOne(experts: nat, ep: nat, e: nat) returns (rank: nat)
    requires 0 < ep <= experts && e < experts
    ensures rank < ep && EpPlan(experts, ep, rank).Owned?
    ensures Owns(experts, ep, rank, e)
    ensures forall s: nat :: s < ep && Owns(experts, ep, s, e) ==> s == rank
  {
    PlanRanges(experts, ep, 0);
    rank := FindRank(experts, ep, e, ep);
    PlanRanges(experts, ep, rank);
    hide EpPlan, Boundary;
    forall s: nat | s < ep && Owns(experts, ep, s, e) ensures s == rank
    {
      PlanRanges(experts, ep, s);
      if s < rank { BoundaryMono(experts, ep, s + 1, rank); }
      if rank < s { BoundaryMono(experts, ep, rank + 1, s); }
    }
  }

  lemma {:induction false} FindRank(experts: nat, ep: nat, e: nat, upTo: nat) returns (rank: nat)
    requires 0 < upTo <= ep && Boundary(experts, ep, 0) == 0 && e < Boundary(experts, ep, upTo)
    ensures rank < upTo && Boundary(experts, ep, rank) <= e < Boundary(experts, ep, rank + 1)
  {
    hide Boundary;
    if e < Boundary(experts, ep, upTo - 1) {
      rank := FindRank(experts, ep, e, upTo - 1);
    } else {
      rank := upTo - 1;
    }
  }

  // ---- The local experts ---------------------------------------------------------------

  /** Rows from.. of row-major data. */
  function SliceRows(data: seq<int>, total: nat, stride: nat, from: nat, rows: nat): (r: seq<int>)
    requires from + rows <= total && |data| == RowStart(total, stride)
    ensures |r| == RowStart(rows, stride)
  {
    MulMono(0, from, stride);
    MulMono(from, from + rows, stride);
    MulMono(from + rows, total, stride);
    MulSum(from, rows, stride);
    data[RowStart(from, stride)..RowStart(from + rows, stride)]
  }

  lemma SliceRowsAt(data: seq<int>, total: nat, stride: nat, from: nat, rows: nat, row: nat, c: nat)
    requires from + rows <= total && |data| == RowStart(total, stride) && row < rows && c < stride
    ensures 0 <= RowStart(row, stride) + c < RowStart(rows, stride)
    ensures 0 <= RowStart(from + row, stride) + c < |data|
    ensures SliceRows(data, total, stride, from, rows)[RowStart(row, stride) + c] == data[RowStart(from + row, stride) + c]
  {
    MulMono(0, from, stride);
    MulMono(from, from + rows, stride);
    MulMono(from + rows, total, stride);
    MulSum(from, row, stride);
    RowFits(row, rows, stride, c);
    RowFits(from + row, total, stride, c);
  }

  /** numpy's w[b0:b1], flattened. */
  function LocalRows(w: Packed, from: nat, rows: nat): Packed
    requires w.Good() && from + rows <= w.rows
  {
    QuotientNat(w.k, w.group);
    Packed(SliceRows(w.bytes, w.rows, w.k / 2, from, rows), SliceRows(w.scales, w.rows, w.k / w.group, from, rows),
           rows, w.k, w.group)
  }

  /** A local row is the global row the range offset says. */
  lemma LocalRow(num: Numerics, w: Packed, from: nat, rows: nat, row: nat, c: nat)
    requires w.Good() && from + rows <= w.rows && row < rows && c < w.k
    ensures LocalRows(w, from, rows).At(num, row, c) == w.At(num, from + row, c)
  {
    var v := LocalRows(w, from, rows);
    QuotientNat(w.k, w.group);
    HalfBelow(c, w.k);
    GroupBelow(0, c, w.group, w.k);
    SliceRowsAt(w.bytes, w.rows, w.k / 2, from, rows, row, c / 2);
    SliceRowsAt(w.scales, w.rows, w.k / w.group, from, rows, row, c / w.group);
    hide Value, RowStart, SliceRows;
    assert v.ByteAt(row, c) == w.ByteAt(from + row, c);
    assert v.ScaleAt(row, c / w.group) == w.ScaleAt(from + row, c / w.group);
  }

  lemma HalfBelow(c: nat, k: nat)
    requires c < k && k % 2 == 0
    ensures 0 <= c / 2 < k / 2
  {
  }

  /** One rank's experts: its rows of every weight and bias. */
  function Local(x: Experts, begin: nat, end: nat): Experts
    requires x.Good() && begin <= end <= x.count
  {
    var n := end - begin;
    MulMono(0, begin, 2 * x.ispp);
    MulMono(0, begin, x.hidden);
    MulMono(0, n, 2 * x.ispp);
    MulMono(0, n, x.hidden);
    RangeFits(begin, n, x.count, 2 * x.ispp);
    RangeFits(begin, n, x.count, x.hidden);
    Experts(x.num, n, x.hidden, x.ispp,
            LocalRows(x.w13, RowStart(begin, 2 * x.ispp), RowStart(n, 2 * x.ispp)),
            LocalRows(x.w2, RowStart(begin, x.hidden), RowStart(n, x.hidden)),
            (e, c) => x.b13(begin + e, c), (e, c) => x.b2(begin + e, c))
  }

  lemma RangeFits(begin: nat, n: nat, count: nat, width: nat)
    requires begin + n <= count
    ensures RowStart(begin, width) + RowStart(n, width) <= RowStart(count, width)
  {
    MulSum(begin, n, width);
    MulMono(begin + n, count, width);
  }

  lemma LocalGood(x: Experts, begin: nat, end: nat)
    requires x.Good() && begin <= end <= x.count
    ensures Local(x, begin, end).Good()
  {
    hide SliceRows;
  }

  lemma LocalWeights(x: Experts, begin: nat, end: nat, e: nat)
    requires x.Good() && begin <= end <= x.count && e < end - begin
    ensures forall n, c :: 0 <= n < 2 * x.ispp && 0 <= c < x.hidden ==>
      Local(x, begin, end).W13At(e, n, c) == x.W13At(begin + e, n, c)
    ensures forall n, c :: 0 <= n < x.hidden && 0 <= c < x.ispp ==>
      Local(x, begin, end).W2At(e, n, c) == x.W2At(begin + e, n, c)
  {
    var v := Local(x, begin, end);
    var n13, n2 := 2 * x.ispp, x.hidden;
    MulMono(0, begin, n13);
    MulMono(0, begin, n2);
    RangeFits(begin, end - begin, x.count, n13);
    RangeFits(begin, end - begin, x.count, n2);
    MulSum(begin, e, n13);
    MulSum(begin, e, n2);
    hide LocalRows;
    forall n, c | 0 <= n < n13 && 0 <= c < x.hidden ensures v.W13At(e, n, c) == x.W13At(begin + e, n, c) {
      RowFits(e, end - begin, n13, n);
      LocalRow(x.num, x.w13, RowStart(begin, n13), RowStart(end - begin, n13), RowStart(e, n13) + n, c);
    }
    forall n, c | 0 <= n < n2 && 0 <= c < x.ispp ensures v.W2At(e, n, c) == x.W2At(begin + e, n, c) {
      RowFits(e, end - begin, n2, n);
      LocalRow(x.num, x.w2, RowStart(begin, n2), RowStart(end - begin, n2), RowStart(e, n2) + n, c);
    }
  }

  lemma LocalBias(x: Experts, begin: nat, end: nat, e: nat, n: int)
    requires x.Good() && begin <= end <= x.count
    ensures Local(x, begin, end).b13(e, n) == x.b13(begin + e, n) && Local(x, begin, end).b2(e, n) == x.b2(begin + e, n)
  {
    hide LocalRows, RowStart;
  }

  lemma LocalShape(x: Experts, begin: nat, end: nat)
    requires x.Good() && begin <= end <= x.count
    ensures var y := Local(x, begin, end);
      y.num == x.num && y.hidden == x.hidden && y.ispp == x.ispp && y.count == end - begin
  {
  }

  /** A rank's experts compute what the same experts compute in the whole layer. */
  lemma LocalOutput(x: Experts, begin: nat, end: nat, e: nat, v: Vec, n: nat)
    requires x.Good() && begin <= end <= x.count && e < end - begin && n < x.hidden
    ensures Local(x, begin, end).Output(e, v, n) == x.Output(begin + e, v, n)
  {
    LocalShape(x, begin, end);
    LocalWeights(x, begin, end, e);
    forall c: int { LocalBias(x, begin, end, e, c); }
    hide Local, Experts.W13At, Experts.W2At, Experts.Output;
    SameOutput(Local(x, begin, end), e, x, begin + e, v, n);
  }

  // ---- ep_dispatch -----------------------------------------------------------------------

  /** The routing with every expert outside [begin, end) replaced by -1. */
  function Masked(ids: seq<int>, begin: int, end: int): (r: seq<int>)
    ensures |r| == |ids|
    ensures forall f :: 0 <= f < |ids| ==> r[f] == if begin <= ids[f] < end then ids[f] else -1
  {
    seq(|ids|, f requires 0 <= f < |ids| => if begin <= ids[f] < end then ids[f] else -1)
  }

  /** r with its block owners counted from `begin`. */
  function Localised(r: Routing, begin: nat): Routing {
    r.(owners := seq(|r.owners|, b requires 0 <= b < |r.owners| =>
         if r.owners[b] >= 0 then r.owners[b] - begin else r.owners[b]))
  }

  /** The rank's rows as its stages walk them: the masked routing aligned, block
      owners made local. */
  function LocalLayout(ids: seq<int>, count: nat, begin: nat, end: nat, w: Vec, topK: nat, bs: nat): Routing
    requires bs > 0
  {
    Localised(StageRows(Masked(ids, begin, end), count, w, topK, bs), begin)
  }

  /** Every block of the masked layout belongs to one of the rank's experts. */
  lemma BlocksOwned(ids: seq<int>, count: nat, begin: nat, end: nat, bs: nat, b: nat)
    requires bs > 0 && begin <= end <= count && b < |ExpertIds(Masked(ids, begin, end), count, bs)|
    ensures begin <= ExpertIds(Masked(ids, begin, end), count, bs)[b] < end
  {
    var masked := Masked(ids, begin, end);
    BlockHasRow(masked, count, bs, b);
    var p := FirstRow(b, bs);
    MulMono(0, b, bs);
    RowsOk(masked, count, bs, p);
    OwnerIsExpertId(masked, count, bs, p);
    DivUnique(p, bs, b);
    hide SortedIds, ExpertIds;
  }

  lemma LocalLayoutGood(ids: seq<int>, count: nat, begin: nat, end: nat, w: Vec, topK: nat, m: nat, bs: nat)
    requires bs > 0 && begin <= end <= count && |ids| == RowStart(m, topK)
    ensures LocalLayout(ids, count, begin, end, w, topK, bs).Good(end - begin, m)
  {
    StageRowsGood(Masked(ids, begin, end), count, w, topK, m, bs);
    var r := LocalLayout(ids, count, begin, end, w, topK, bs);
    forall b: nat | b < |r.owners| ensures -1 <= r.owners[b] < end - begin {
      BlocksOwned(ids, count, begin, end, bs, b);
    }
    hide SortedIds, ExpertIds;
  }

  lemma LocalOwner(ids: seq<int>, count: nat, begin: nat, end: nat, w: Vec, topK: nat, p: nat)
    requires begin <= end <= count && p < |Aligned(Masked(ids, begin, end), count, w, topK).rows|
    ensures var g := Aligned(Masked(ids, begin, end), count, w, topK);
      var r := Localised(g, begin);
      && r.rows == g.rows && r.weights == g.weights && r.topK == g.topK && r.n == g.n
      && 0 <= r.Owner(p) < end - begin && g.Owner(p) == begin + r.Owner(p)
  {
    OwnerIsExpertId(Masked(ids, begin, end), count, BLOCK_M, p);
    BlocksOwned(ids, count, begin, end, BLOCK_M, p / BLOCK_M);
    hide SortedIds, ExpertIds;
  }

  /** A local row contributes what its global expert would. */
  lemma LocalContribution(x: Experts, ids: seq<int>, begin: nat, end: nat, w: Vec, topK: nat, a: Mat, t: int, col: nat, p: nat)
    requires x.Good() && begin <= end <= x.count && col < x.hidden
    requires p < |Aligned(Masked(ids, begin, end), x.count, w, topK).rows|
    ensures var g := Aligned(Masked(ids, begin, end), x.count, w, topK);
      Contribution(Local(x, begin, end), Localised(g, begin), a, t, col)(p) == Contribution(x, g, a, t, col)(p)
  {
    hide Local, Localised, Aligned, Times, Experts.Output, Contribution, Routing.Owner;
    LocalOwner(ids, x.count, begin, end, w, topK, p);
    var g := Aligned(Masked(ids, begin, end), x.count, w, topK);
    var r := Localised(g, begin);
    LocalOutput(x, begin, end, r.Owner(p), Row(a, t), col);
    SameContribution(Local(x, begin, end), r, x, g, a, t, col, p);
  }

  lemma SameContribution(y: Experts, r: Routing, x: Experts, g: Routing, a: Mat, t: int, col: int, p: nat)
    requires p < |r.rows| && r.rows == g.rows && r.weights == g.weights && r.topK == g.topK && r.n == g.n
    requires r.Owner(p) >= 0 && g.Owner(p) >= 0
    requires y.Output(r.Owner(p), Row(a, t), col) == x.Output(g.Owner(p), Row(a, t), col)
    ensures Contribution(y, r, a, t, col)(p) == Contribution(x, g, a, t, col)(p)
  {
    hide Times, Experts.Output, Routing.Owner;
    assert g.Filled(p) == r.Filled(p) && g.Token(p) == r.Token(p);
    var u, v := y.Output(r.Owner(p), Row(a, t), col), x.Output(g.Owner(p), Row(a, t), col);
    assert |r.weights| == |r.rows| ==> Times(u, r.weights[p]) == Times(v, g.weights[p]);
  }

  lemma LocalCombined(x: Experts, ids: seq<int>, begin: nat, end: nat, w: Vec, topK: nat, m: nat, a: Mat, t: nat, col: nat)
    requires x.Good() && begin <= end <= x.count && col < x.hidden && t < m && |ids| == RowStart(m, topK)
    ensures Combined(Local(x, begin, end), LocalLayout(ids, x.count, begin, end, w, topK, BLOCK_M), a, t, col)
      == MoeOut(x, Masked(ids, begin, end), w, topK, a, t, col)
  {
    hide Contribution, MoeOut, Local, StageRows;
    var g := Aligned(Masked(ids, begin, end), x.count, w, topK);
    var y, r := Local(x, begin, end), Localised(g, begin);
    SixteenRows(Masked(ids, begin, end), x.count, w, topK);
    forall p | 0 <= p < |r.rows| ensures Contribution(y, r, a, t, col)(p) == Contribution(x, g, a, t, col)(p) {
      LocalContribution(x, ids, begin, end, w, topK, a, t, col, p);
    }
    SumCongr(0, |r.rows|, Contribution(y, r, a, t, col), Contribution(x, g, a, t, col));
    AlignedMeansRouted(x, Masked(ids, begin, end), w, topK, m, a, t, col);
  }

  // ---- The forward -----------------------------------------------------------------------

  lemma WholeColumns(x: Experts)
    requires x.Good()
    ensures W13Columns(x, x.w13, 0, x.hidden) && W2Columns(x, x.w2, 0, x.ispp)
  {
  }

  /** _moe_local_forward: the four stages on one rank's experts, whole reductions. */
  method LocalForward(x: Experts, r: Routing, m: nat, a: Mat) returns (out: array2<real>)
    requires WholeTiles(x) && r.Good(x.count, m)
    ensures fresh(out) && out.Length0 == m && out.Length1 == x.hidden
    ensures forall t, c :: 0 <= t < m && 0 <= c < x.hidden ==> out[t, c] == Combined(x, r, a, t, c)
  {
    WholeColumns(x);
    hide Combined, W13Columns, W2Columns, GateUpPart, DownPart, ActAt;
    var gateUp := new real[|r.rows|, 2 * x.ispp]((_, _) => 0.0);
    GateUp(x, r, m, a, x.w13, 0, x.hidden, gateUp);
    var act := new real[|r.rows|, x.ispp];
    ActEpilogue(x, r, m, a, gateUp, act);
    var partial := new real[|r.rows|, x.hidden]((_, _) => 0.0);
    Down(x, r, m, a, x.w2, 0, x.ispp, act, partial);
    out := new real[m, x.hidden]((_, _) => 0.0);
    Combine(x, r, m, a, partial, out);
  }

  datatype Outcome = Outs(outs: seq<array2<real>>) | EpNotPositive | FewerExpertsThanRanks | BadBlockSize | BlockPastEnd(rank: nat)

  /** The ranges of consecutive ranks. */
  lemma RankRange(x: Experts, ep: nat, rank: nat)
    requires rank < ep <= x.count
    ensures Boundary(x.count, ep, rank) <= Boundary(x.count, ep, rank + 1) <= x.count
  {
    PlanRanges(x.count, ep, rank);
    BoundaryMono(x.count, ep, rank, rank + 1);
    BoundaryMono(x.count, ep, rank + 1, ep);
  }

  /** The routing rank `rank` keeps. */
  function RankIds(x: Experts, ids: seq<int>, ep: nat, rank: nat): (r: seq<int>)
    requires ep > 0
    ensures |r| == |ids|
  {
    Masked(ids, Boundary(x.count, ep, rank), Boundary(x.count, ep, rank + 1))
  }

  /** What rank `rank` computes at block size bs. */
  function RankAt(x: Experts, ids: seq<int>, w: Vec, topK: nat, a: Mat, ep: nat, rank: nat, bs: nat, t: int, c: int): real
    requires x.Good() && rank < ep <= x.count && bs > 0
  {
    var begin, end := Boundary(x.count, ep, rank), Boundary(x.count, ep, rank + 1);
    RankRange(x, ep, rank);
    Combined(Local(x, begin, end), LocalLayout(ids, x.count, begin, end, w, topK, bs), a, t, c)
  }

  ghost predicate RankReturns(x: Experts, ids: seq<int>, w: Vec, topK: nat, m: nat, a: Mat, ep: nat, rank: nat, bs: nat, out: array2<real>)
    requires x.Good() && rank < ep <= x.count && bs > 0
    reads out
  {
    && out.Length0 == m && out.Length1 == x.hidden
    && forall t, c :: 0 <= t < m && 0 <= c < x.hidden ==> out[t, c] == RankAt(x, ids, w, topK, a, ep, rank, bs, t, c)
  }

  /** At block size 16 that is the routed sum over the rank's own experts. */
  lemma SixteenRank(x: Experts, ids: seq<int>, w: Vec, topK: nat, m: nat, a: Mat, ep: nat, rank: nat, out: array2<real>)
    requires x.Good() && rank < ep <= x.count && |ids| == RowStart(m, topK)
    requires RankReturns(x, ids, w, topK, m, a, ep, rank, BLOCK_M, out)
    ensures RankOutput(x, ids, w, topK, m, a, ep, rank, out)
  {
    RankRange(x, ep, rank);
    hide Boundary, Local, LocalLayout, Combined, MoeOut;
    forall t, c | 0 <= t < m && 0 <= c < x.hidden ensures out[t, c] == RankSum(x, ids, w, topK, a, ep, rank, t, c) {
      LocalCombined(x, ids, Boundary(x.count, ep, rank), Boundary(x.count, ep, rank + 1), w, topK, m, a, t, c);
    }
  }

  /** What rank `rank` returns: the routed sum over its own experts only. */
  ghost predicate RankOutput(x: Experts, ids: seq<int>, w: Vec, topK: nat, m: nat, a: Mat, ep: nat, rank: nat, out: array2<real>)
    requires ep > 0
    reads out
  {
    && out.Length0 == m && out.Length1 == x.hidden
    && forall t, c :: 0 <= t < m && 0 <= c < x.hidden ==> out[t, c] == RankSum(x, ids, w, topK, a, ep, rank, t, c)
  }

  function RankSum(x: Experts, ids: seq<int>, w: Vec, topK: nat, a: Mat, ep: nat, rank: nat, t: int, c: int): real
    requires ep > 0
  {
    MoeOut(x, Masked(ids, Boundary(x.count, ep, rank), Boundary(x.count, ep, rank + 1)), w, topK, a, t, c)
  }

  /** One rank of dist_moe_ep: its output, or the error its stages raise. */
  method RankForward(x: Experts, ids: seq<int>, w: Vec, topK: nat, m: nat, a: Mat, ep: nat, rank: nat, bs: nat)
      returns (ok: bool, out: array2<real>)
    requires WholeTiles(x) && |ids| == RowStart(m, topK) && rank < ep <= x.count && bs > 0
    ensures ok <==> Covered(RankIds(x, ids, ep, rank), x.count, bs)
    ensures ok ==> fresh(out) && RankReturns(x, ids, w, topK, m, a, ep, rank, bs, out)
  {
    var plan := EpPlan(x.count, ep, rank);
    PlanRanges(x.count, ep, rank);
    RankRange(x, ep, rank);
    hide EpPlan, Boundary;
    var begin, end := plan.begin, plan.end;
    var y := Local(x, begin, end);
    LocalGood(x, begin, end);
    LocalShape(x, begin, end);
    assert WholeTiles(y);
    hide Local, Combined, Covered, StageRows, WholeTiles;
    var walk := StageLayout(Masked(ids, begin, end), x.count, w, topK, m, bs);
    if !walk.Rows? {
      out := new real[0, 0];
      return false, out;
    }
    LocalLayoutGood(ids, x.count, begin, end, w, topK, m, bs);
    var r := Localised(walk.routing, begin);
    hide Localised;
    ok := true;
    out := LocalForward(y, r, m, a);
  }

  lemma MaskJoin(x: Experts, ids: seq<int>, w: Vec, topK: nat, a: Mat, b: nat, e: nat, t: int, c: int)
    requires b <= e
    ensures MoeOut(x, Masked(ids, 0, b), w, topK, a, t, c) + MoeOut(x, Masked(ids, b, e), w, topK, a, t, c)
      == MoeOut(x, Masked(ids, 0, e), w, topK, a, t, c)
  {
    var f, g := Selected(x, Masked(ids, 0, b), w, topK, a, t, c), Selected(x, Masked(ids, b, e), w, topK, a, t, c);
    var h := Selected(x, Masked(ids, 0, e), w, topK, a, t, c);
    hide RowStart, Times, Experts.Output;
    forall sel | 0 <= sel < topK ensures h(sel) == f(sel) + g(sel) {
      assert SelectedAt(x, Masked(ids, 0, e), w, topK, a, t, c, sel)
        == SelectedAt(x, Masked(ids, 0, b), w, topK, a, t, c, sel) + SelectedAt(x, Masked(ids, b, e), w, topK, a, t, c, sel);
    }
    SumAdd(0, topK, f, g, h);
  }

  lemma MaskNone(x: Experts, ids: seq<int>, w: Vec, topK: nat, a: Mat, t: int, c: int)
    ensures MoeOut(x, Masked(ids, 0, 0), w, topK, a, t, c) == 0.0
    ensures MoeOut(x, Masked(ids, 0, x.count), w, topK, a, t, c) == MoeOut(x, ids, w, topK, a, t, c)
  {
    hide RowStart, Times, Experts.Output;
    var f := Selected(x, Masked(ids, 0, 0), w, topK, a, t, c);
    forall sel | 0 <= sel < topK ensures f(sel) == 0.0 {
      assert SelectedAt(x, Masked(ids, 0, 0), w, topK, a, t, c, sel) == 0.0;
    }
    SumZero(0, topK, f);
    var g, h := Selected(x, Masked(ids, 0, x.count), w, topK, a, t, c), Selected(x, ids, w, topK, a, t, c);
    forall sel | 0 <= sel < topK ensures g(sel) == h(sel) {
      assert SelectedAt(x, Masked(ids, 0, x.count), w, topK, a, t, c, sel) == SelectedAt(x, ids, w, topK, a, t, c, sel);
    }
    SumCongr(0, topK, g, h);
  }

  lemma {:induction false} RanksAddUp(x: Experts, ids: seq<int>, w: Vec, topK: nat, a: Mat, ep: nat, k: nat, t: int, c: int)
    requires 0 < ep <= x.count && k <= ep
    ensures Sum(0, k, rank => if rank >= 0 then RankSum(x, ids, w, topK, a, ep, rank, t, c) else 0.0)
      == MoeOut(x, Masked(ids, 0, Boundary(x.count, ep, k)), w, topK, a, t, c)
  {
    PlanRanges(x.count, ep, 0);
    hide MoeOut, EpPlan, Boundary;
    if k == 0 {
      MaskNone(x, ids, w, topK, a, t, c);
    } else {
      RanksAddUp(x, ids, w, topK, a, ep, k - 1, t, c);
      BoundaryMono(x.count, ep, k - 1, k);
      MaskJoin(x, ids, w, topK, a, Boundary(x.count, ep, k - 1), Boundary(x.count, ep, k), t, c);
    }
  }

  /** The sum of the ranks' partial outputs is the whole routed sum. */
  lemma PartialsSum(x: Experts, ids: seq<int>, w: Vec, topK: nat, a: Mat, ep: nat, t: int, c: int)
    requires 0 < ep <= x.count
    ensures Sum(0, ep, rank => if rank >= 0 then RankSum(x, ids, w, topK, a, ep, rank, t, c) else 0.0)
      == MoeOut(x, ids, w, topK, a, t, c)
  {
    hide MoeOut, EpPlan, Boundary;
    RanksAddUp(x, ids, w, topK, a, ep, ep, t, c);
    PlanRanges(x.count, ep, 0);
    MaskNone(x, ids, w, topK, a, t, c);
  }

  lemma SixteenRanks(x: Experts, ids: seq<int>, w: Vec, topK: nat, m: nat, a: Mat, outs: seq<array2<real>>)
    requires x.Good() && 0 < |outs| <= x.count && |ids| == RowStart(m, topK)
    requires forall q :: 0 <= q < |outs| ==> RankReturns(x, ids, w, topK, m, a, |outs|, q, BLOCK_M, outs[q])
    ensures forall q :: 0 <= q < |outs| ==> RankOutput(x, ids, w, topK, m, a, |outs|, q, outs[q])
    ensures AddUp(x, ids, w, topK, m, a, outs)
  {
    hide RankReturns, RankOutput, AddUp;
    forall q | 0 <= q < |outs| ensures RankOutput(x, ids, w, topK, m, a, |outs|, q, outs[q]) {
      SixteenRank(x, ids, w, topK, m, a, |outs|, q, outs[q]);
    }
    PartialsAddUp(x, ids, w, topK, m, a, outs);
  }

  /** out[0] + ... + out[n - 1], at one place. */
  ghost function OutsSum(outs: seq<array2<real>>, n: nat, t: nat, c: nat): real
    requires n <= |outs| && forall i :: 0 <= i < |outs| ==> t < outs[i].Length0 && c < outs[i].Length1
    reads outs
  {
    if n == 0 then 0.0 else OutsSum(outs, n - 1, t, c) + outs[n - 1][t, c]
  }

  /** The element-wise sum of the partial outputs is the routed sum. */
  ghost predicate AddUp(x: Experts, ids: seq<int>, w: Vec, topK: nat, m: nat, a: Mat, outs: seq<array2<real>>)
    reads outs
  {
    && (forall i :: 0 <= i < |outs| ==> outs[i].Length0 == m && outs[i].Length1 == x.hidden)
    && forall t: nat, c: nat :: t < m && c < x.hidden ==> OutsSum(outs, |outs|, t, c) == MoeOut(x, ids, w, topK, a, t, c)
  }

  lemma {:induction false} OutsAreRanks(x: Experts, ids: seq<int>, w: Vec, topK: nat, m: nat, a: Mat,
                                        outs: seq<array2<real>>, k: nat, t: nat, c: nat)
    requires |outs| > 0 && k <= |outs| && t < m && c < x.hidden
    requires forall i :: 0 <= i < |outs| ==> outs[i].Length0 == m && outs[i].Length1 == x.hidden
    requires forall rank :: 0 <= rank < |outs| ==> RankOutput(x, ids, w, topK, m, a, |outs|, rank, outs[rank])
    ensures OutsSum(outs, k, t, c)
      == Sum(0, k, rank => if rank >= 0 then RankSum(x, ids, w, topK, a, |outs|, rank, t, c) else 0.0)
  {
    hide RankSum;
    if k > 0 {
      OutsAreRanks(x, ids, w, topK, m, a, outs, k - 1, t, c);
      assert RankOutput(x, ids, w, topK, m, a, |outs|, k - 1, outs[k - 1]);
    }
  }

  lemma PartialsAddUp(x: Experts, ids: seq<int>, w: Vec, topK: nat, m: nat, a: Mat, outs: seq<array2<real>>)
    requires 0 < |outs| <= x.count
    requires forall rank :: 0 <= rank < |outs| ==> RankOutput(x, ids, w, topK, m, a, |outs|, rank, outs[rank])
    ensures AddUp(x, ids, w, topK, m, a, outs)
  {
    hide MoeOut, RankSum;
    forall t: nat, c: nat | t < m && c < x.hidden
      ensures (forall i :: 0 <= i < |outs| ==> outs[i].Length0 == m && outs[i].Length1 == x.hidden)
      ensures OutsSum(outs, |outs|, t, c) == MoeOut(x, ids, w, topK, a, t, c)
    {
      OutsAreRanks(x, ids, w, topK, m, a, outs, |outs|, t, c);
      PartialsSum(x, ids, w, topK, a, |outs|, t, c);
    }
  }

  /** Every rank's stages stay inside its expert_ids. */
  ghost predicate RanksCovered(x: Experts, ids: seq<int>, ep: nat, bs: nat)
    requires ep > 0 && bs > 0
  {
    forall rank: nat :: rank < ep ==> Covered(RankIds(x, ids, ep, rank), x.count, bs)
  }

  lemma SixteenCovered(x: Experts, ids: seq<int>, w: Vec, topK: nat, ep: nat)
    requires ep > 0
    ensures RanksCovered(x, ids, ep, BLOCK_M)
  {
    hide Covered, RankIds;
    forall rank: nat | rank < ep ensures Covered(RankIds(x, ids, ep, rank), x.count, BLOCK_M) {
      SixteenRows(RankIds(x, ids, ep, rank), x.count, w, topK);
    }
  }

  lemma SameRanksCovered(x: Experts, y: Experts, ids: seq<int>, ep: nat, bs: nat)
    requires ep > 0 && bs > 0 && x.count == y.count
    ensures RanksCovered(x, ids, ep, bs) <==> RanksCovered(y, ids, ep, bs)
  {
    assert forall rank: nat :: RankIds(y, ids, ep, rank) == RankIds(x, ids, ep, rank);
    hide Covered, RankIds;
  }

  /** The outputs so far are those of the first ranks. */
  ghost predicate RanksReturn(x: Experts, ids: seq<int>, w: Vec, topK: nat, m: nat, a: Mat, ep: nat, bs: nat, outs: seq<array2<real>>)
    requires x.Good() && ep <= x.count && bs > 0
    reads outs
  {
    |outs| <= ep && forall q :: 0 <= q < |outs| ==> RankReturns(x, ids, w, topK, m, a, ep, q, bs, outs[q])
  }

  lemma NextReturns(x: Experts, ids: seq<int>, w: Vec, topK: nat, m: nat, a: Mat, ep: nat, bs: nat, outs: seq<array2<real>>, out: array2<real>)
    requires x.Good() && |outs| < ep <= x.count && bs > 0
    requires RanksReturn(x, ids, w, topK, m, a, ep, bs, outs)
    requires RankReturns(x, ids, w, topK, m, a, ep, |outs|, bs, out)
    ensures RanksReturn(x, ids, w, topK, m, a, ep, bs, outs + [out])
  {
    hide RankReturns;
  }

  /** The loop over the ranks. */
  method AllRanks(x: Experts, ids: seq<int>, w: Vec, topK: nat, m: nat, a: Mat, ep: nat, bs: nat) returns (res: Outcome)
    requires WholeTiles(x) && |ids| == RowStart(m, topK) && 0 < ep <= x.count && bs > 0
    ensures res.Outs? || res.BlockPastEnd?
    ensures res.Outs? <==> RanksCovered(x, ids, ep, bs)
    ensures res.Outs? ==> |res.outs| == ep && RanksReturn(x, ids, w, topK, m, a, ep, bs, res.outs)
  {
    assert x.Good();
    var outs: seq<array2<real>> := [];
    assert RanksReturn(x, ids, w, topK, m, a, ep, bs, outs);
    hide RankReturns, RanksReturn, WholeTiles, Covered, RankIds, Experts.Good;
    for rank := 0 to ep
      invariant |outs| == rank && RanksReturn(x, ids, w, topK, m, a, ep, bs, outs)
      invariant forall q: nat :: q < rank ==> Covered(RankIds(x, ids, ep, q), x.count, bs)
    {
      var ok, out := RankForward(x, ids, w, topK, m, a, ep, rank, bs);
      if !ok { return Outcome.BlockPastEnd(rank); }
      NextReturns(x, ids, w, topK, m, a, ep, bs, outs, out);
      outs := outs + [out];
    }
    res := Outs(outs);
  }

  /** dist_moe_ep: one partial output per rank. At the default block size the
      partials add up to the routed sum; at others the stages still walk 16 rows at a
      time (MoeBlocks). */
  method DistMoeEp(x: Experts, ids: seq<int>, w: Vec, topK: nat, m: nat, a: Mat, ep: int, gates: Epilogue, activation: string,
                   blockSize: int)
      returns (res: Outcome)
    requires WholeTiles(x) && |ids| == RowStart(m, topK)
    ensures res.EpNotPositive? <==> ep <= 0
    ensures res.FewerExpertsThanRanks? <==> ep > 0 && x.count < ep
    ensures res.BadBlockSize? <==> 0 < ep <= x.count && blockSize <= 0
    ensures res.Outs? <==> 0 < ep <= x.count && blockSize > 0 && RanksCovered(x, ids, ep, blockSize)
    ensures res.Outs? ==> |res.outs| == ep
    ensures res.Outs? ==> forall rank :: 0 <= rank < |res.outs| ==>
      RankReturns(StageView(x, gates, activation), ids, w, topK, m, a, ep, rank, blockSize, res.outs[rank])
    ensures blockSize == BLOCK_M && 0 < ep <= x.count ==> res.Outs?
    ensures blockSize == BLOCK_M && res.Outs? ==> forall rank :: 0 <= rank < |res.outs| ==>
      RankOutput(StageView(x, gates, activation), ids, w, topK, m, a, ep, rank, res.outs[rank])
    ensures blockSize == BLOCK_M && res.Outs? ==> AddUp(StageView(x, gates, activation), ids, w, topK, m, a, res.outs)
  {
    if ep <= 0 { return EpNotPositive; }
    if EpPlan(x.count, ep, 0).TooFewExperts? { return FewerExpertsThanRanks; }
    if blockSize <= 0 { return Outcome.BadBlockSize; }
    var y := StageView(x, gates, activation);
    assert WholeTiles(y);
    SameRanksCovered(x, y, ids, ep, blockSize);
    hide StageView, RankOutput, RankReturns, AddUp, WholeTiles, EpPlan, RanksCovered;
    res := AllRanks(y, ids, w, topK, m, a, ep, blockSize);
    if blockSize == BLOCK_M {
      SixteenCovered(y, ids, w, topK, ep);
      SixteenRanks(y, ids, w, topK, m, a, res.outs);
    }
  }
}
