/** What the routed mixture of experts means: for every token, the weighted sum of
    its chosen experts' outputs, independent of any sorted layout. */
module MoeSpec {
  import opened IntArith
  import opened MoeAlign
  import opened MoeGates
  import opened MoeWeights
  import opened RealArith
  import opened Sums

  /** The experts' weights and biases. w13 holds, expert by expert, the gate rows
      and then the up rows; w2 the down rows. An absent bias is all zeros. */
  datatype Experts = Experts(num: Numerics, count: nat, hidden: nat, ispp: nat,
                             w13: Packed, w2: Packed, b13: Mat, b2: Mat)
  {
    ghost predicate Good() {
      && w13.Good() && w13.k == hidden && w13.rows == RowStart(count, 2 * ispp)
      && w2.Good() && w2.k == ispp && w2.rows == RowStart(count, hidden) && w2.group == w13.group
    }

    function W13At(e: int, n: int, c: int): real { w13.At(num, RowStart(e, 2 * ispp) + n, c) }

    function W2At(e: int, n: int, c: int): real { w2.At(num, RowStart(e, hidden) + n, c) }

    function W13Row(e: int, n: int): Vec { c => W13At(e, n, c) }

    function W2Row(e: int, n: int): Vec { c => W2At(e, n, c) }

    /** Column n of expert e's gate (n < ispp) and up projections of v. */
    function GateUp(e: int, v: Vec, n: int): real { Dot(0, hidden, v, W13Row(e, n)) }

    function Activated(e: int, gate: real, up: real, n: int): real {
      num.bf16(num.act(gate + b13(e, n), up + b13(e, n + ispp)))
    }

    function ActVec(e: int, v: Vec): Vec { n => Activated(e, GateUp(e, v, n), GateUp(e, v, n + ispp), n) }

    function Down(e: int, act: Vec, n: int): real { Dot(0, ispp, act, W2Row(e, n)) }

    /** Expert e's output for the token vector v. */
    function Output(e: int, v: Vec, n: int): real { Down(e, ActVec(e, v), n) + b2(e, n) }
  }

  /** The layer with its scale bytes read by `reader`. */
  function ReadBy(x: Experts, reader: Reader): (y: Experts)
    ensures y.num == x.num.(reader := reader) && y.count == x.count && y.hidden == x.hidden && y.ispp == x.ispp
    ensures y.w13 == x.w13 && y.w2 == x.w2 && y.b13 == x.b13 && y.b2 == x.b2
  {
    x.(num := x.num.(reader := reader))
  }

  /** The layer as dist.py computes it: its scale decoder, and the activation of the name. */
  function StageView(x: Experts, s: Epilogue, name: string): (y: Experts)
    ensures y.num == x.num.(reader := Stages, act := Named(s, name))
    ensures y.count == x.count && y.hidden == x.hidden && y.ispp == x.ispp
    ensures y.w13 == x.w13 && y.w2 == x.w2 && y.b13 == x.b13 && y.b2 == x.b2
  {
    x.(num := x.num.(reader := Stages, act := Named(s, name)))
  }

  /** Expert e of y and expert f of x hold the same weights and biases. */
  ghost predicate SameExpert(y: Experts, e: int, x: Experts, f: int) {
    && y.num.bf16 == x.num.bf16 && y.num.act == x.num.act && y.hidden == x.hidden && y.ispp == x.ispp
    && (forall n, c :: 0 <= n < 2 * x.ispp && 0 <= c < x.hidden ==> y.W13At(e, n, c) == x.W13At(f, n, c))
    && (forall n, c :: 0 <= n < x.hidden && 0 <= c < x.ispp ==> y.W2At(e, n, c) == x.W2At(f, n, c))
    && (forall n :: y.b13(e, n) == x.b13(f, n) && y.b2(e, n) == x.b2(f, n))
  }

  lemma SameGateUp(y: Experts, e: int, x: Experts, f: int, v: Vec, n: nat)
    requires SameExpert(y, e, x, f) && n < 2 * x.ispp
    ensures y.GateUp(e, v, n) == x.GateUp(f, v, n)
  {
    hide Experts.W13At, Dot;
    var g, h := y.W13Row(e, n), x.W13Row(f, n);
    forall c | 0 <= c < x.hidden ensures g(c) == h(c) {
      assert y.W13At(e, n, c) == x.W13At(f, n, c);
    }
    DotCongr(0, x.hidden, v, g, v, h);
  }

  lemma ActVecAt(x: Experts, e: int, v: Vec, n: int)
    ensures x.ActVec(e, v)(n) == x.Activated(e, x.GateUp(e, v, n), x.GateUp(e, v, n + x.ispp), n)
  {
    hide Experts.GateUp, Experts.Activated;
  }

  lemma SameShape(y: Experts, e: int, x: Experts, f: int)
    requires SameExpert(y, e, x, f)
    ensures y.num.bf16 == x.num.bf16 && y.num.act == x.num.act && y.hidden == x.hidden && y.ispp == x.ispp
  {
  }

  lemma SameActivated(y: Experts, e: int, x: Experts, f: int, gate: real, up: real, c: nat)
    requires SameExpert(y, e, x, f)
    ensures y.Activated(e, gate, up, c) == x.Activated(f, gate, up, c)
  {
    hide Experts.W13At, Experts.W2At;
    assert y.b13(e, c) == x.b13(f, c) && y.b13(e, c + x.ispp) == x.b13(f, c + x.ispp);
  }

  lemma SameAct(y: Experts, e: int, x: Experts, f: int, v: Vec, c: nat)
    requires SameExpert(y, e, x, f) && c < x.ispp
    ensures y.ActVec(e, v)(c) == x.ActVec(f, v)(c)
  {
    hide Experts.GateUp, Experts.Activated, Experts.ActVec, Experts.W13At, Experts.W2At, SameExpert;
    SameShape(y, e, x, f);
    ActVecAt(y, e, v, c);
    ActVecAt(x, f, v, c);
    SameGateUp(y, e, x, f, v, c);
    SameGateUp(y, e, x, f, v, c + x.ispp);
    SameActivated(y, e, x, f, x.GateUp(f, v, c), x.GateUp(f, v, c + x.ispp), c);
  }

  /** Then they compute the same output. */
  lemma SameOutput(y: Experts, e: int, x: Experts, f: int, v: Vec, n: nat)
    requires SameExpert(y, e, x, f) && n < x.hidden
    ensures y.Output(e, v, n) == x.Output(f, v, n)
  {
    hide Experts.W2At, Experts.ActVec, Dot;
    var g, h := y.ActVec(e, v), x.ActVec(f, v);
    forall c | 0 <= c < x.ispp ensures g(c) == h(c) {
      SameAct(y, e, x, f, v, c);
    }
    var p, q := y.W2Row(e, n), x.W2Row(f, n);
    forall c | 0 <= c < x.ispp ensures p(c) == q(c) {
      assert y.W2At(e, n, c) == x.W2At(f, n, c);
    }
    DotCongr(0, x.ispp, g, p, h, q);
  }

  const BLOCK_M := 16

  /** A block-aligned routing: row p is a flat index or padding (>= n), block p / 16
      belongs to owners[p / 16] (-1: skipped), weights[p] is the row's weight. */
  datatype Routing = Routing(rows: seq<int>, owners: seq<int>, weights: seq<real>, topK: nat, n: nat)
  {
    ghost predicate Good(count: nat, m: nat) {
      && |rows| == |weights| == BLOCK_M * |owners|
      && (forall b :: 0 <= b < |owners| ==> -1 <= owners[b] < count)
      && (forall p :: 0 <= p < |rows| ==> 0 <= rows[p])
      && n == RowStart(m, topK)
    }

    function Owner(p: int): int {
      if 0 <= p / BLOCK_M < |owners| then owners[p / BLOCK_M] else -1
    }

    predicate Filled(p: int) { 0 <= p < |rows| && rows[p] < n }

    predicate Real(p: int) { Owner(p) >= 0 && Filled(p) }

    function Token(p: int): int
      requires 0 <= p < |rows|
    {
      if topK == 0 then 0 else rows[p] / topK
    }

    /** The input row a block loads for position p: zeros for padding. */
    function InputAt(a: Mat, p: int, c: int): real {
      if Filled(p) then a(Token(p), c) else 0.0
    }

    function Input(a: Mat, p: int): Vec { c => InputAt(a, p, c) }
  }

  lemma TokenInRange(r: Routing, count: nat, m: nat, p: nat)
    requires r.Good(count, m) && r.Filled(p)
    ensures r.topK > 0 && 0 <= r.Token(p) < m
  {
    DivMod(r.rows[p], r.topK);
    if r.Token(p) >= m { MulMono(m, r.Token(p), r.topK); }
    if r.Token(p) < 0 { MulMono(r.Token(p), -1, r.topK); }
  }

  /** What row p adds to out[t][col]. */
  function Contribution(x: Experts, r: Routing, a: Mat, t: int, col: int): Vec {
    p => if 0 <= p < |r.rows| && |r.weights| == |r.rows| && r.Real(p) && r.Token(p) == t
      then Times(x.Output(r.Owner(p), Row(a, t), col), r.weights[p]) else 0.0
  }

  /** The output, over any sorted layout. */
  function Combined(x: Experts, r: Routing, a: Mat, t: int, col: int): real {
    Sum(0, |r.rows|, Contribution(x, r, a, t, col))
  }

  // ---- The meaning, with no layout ---------------------------------------------------

  /** Token t's selection sel, if it names an expert. */
  function SelectedAt(x: Experts, ids: seq<int>, w: Vec, topK: nat, a: Mat, t: int, col: int, sel: int): real {
    var f := RowStart(t, topK) + sel;
    if 0 <= f < |ids| && Routed(ids[f], x.count)
    then Times(x.Output(ids[f], Row(a, t), col), w(f)) else 0.0
  }

  function Selected(x: Experts, ids: seq<int>, w: Vec, topK: nat, a: Mat, t: int, col: int): Vec {
    sel => SelectedAt(x, ids, w, topK, a, t, col, sel)
  }

  /** out[t][col]: the sum over the token's selections. */
  function MoeOut(x: Experts, ids: seq<int>, w: Vec, topK: nat, a: Mat, t: int, col: int): real {
    Sum(0, topK, Selected(x, ids, w, topK, a, t, col))
  }

  function Ones(): Vec { _ => 1.0 }

  /** A single token with one selection gets that expert's output. */
  lemma OneToken(y: Experts, ids: seq<int>, a: Mat)
    requires |ids| == 1 && Routed(ids[0], y.count)
    ensures MoeOut(y, ids, Ones(), 1, a, 0, 0) == y.Output(ids[0], Row(a, 0), 0)
  {
    hide Experts.Output;
    var f := Selected(y, ids, Ones(), 1, a, 0, 0);
    assert f(0) == Times(y.Output(ids[0], Row(a, 0), 0), 1.0);
    assert Sum(0, 1, f) == Sum(0, 0, f) + f(0);
  }

  /** The term of flat index f, if it is one of token t's. */
  function FlatTerm(x: Experts, ids: seq<int>, w: Vec, topK: nat, a: Mat, t: int, col: int): Vec {
    f => if topK > 0 && 0 <= f < |ids| && Routed(ids[f], x.count) && f / topK == t
      then Times(x.Output(ids[f], Row(a, t), col), w(f)) else 0.0
  }

  /** The aligned layout of a routing table. */
  function Aligned(ids: seq<int>, count: nat, w: Vec, topK: nat): Routing {
    var rows := SortedIds(ids, count, BLOCK_M);
    Routing(rows, ExpertIds(ids, count, BLOCK_M),
            seq(|rows|, p requires 0 <= p < |rows| => if 0 <= rows[p] < |ids| then w(rows[p]) else 0.0), topK, |ids|)
  }

  lemma AlignedGood(ids: seq<int>, count: nat, w: Vec, topK: nat, m: nat)
    requires |ids| == RowStart(m, topK)
    ensures Aligned(ids, count, w, topK).Good(count, m)
  {
    var r := Aligned(ids, count, w, topK);
    SortedLength(ids, count, BLOCK_M);
    forall p: nat | p < |r.rows| ensures 0 <= r.rows[p] {
      RowsOk(ids, count, BLOCK_M, p);
    }
    forall b: nat | b < |r.owners| ensures -1 <= r.owners[b] < count {
      BlockHasRow(ids, count, BLOCK_M, b);
      OwnersBelow(ids, count, BLOCK_M, b);
    }
  }

  lemma {:induction false} OwnersBelow(ids: seq<int>, count: nat, bs: nat, b: nat)
    requires bs > 0 && b < |ExpertIds(ids, count, bs)|
    ensures ExpertIds(ids, count, bs)[b] < count
  {
    hide Blocks, PerExpert;
    if b < |ExpertIds(ids, count - 1, bs)| { OwnersBelow(ids, count - 1, bs, b); }
  }

  lemma ContributionIsFlat(x: Experts, ids: seq<int>, w: Vec, topK: nat, m: nat, a: Mat, t: int, col: int, p: nat)
    requires |ids| == RowStart(m, topK) && p < |SortedIds(ids, x.count, BLOCK_M)|
    ensures var r := Aligned(ids, x.count, w, topK);
      Contribution(x, r, a, t, col)(p) == RowTerm(|ids|, r.rows[p], FlatTerm(x, ids, w, topK, a, t, col))
  {
    var r := Aligned(ids, x.count, w, topK);
    RowsOk(ids, x.count, BLOCK_M, p);
    OwnerIsExpertId(ids, x.count, BLOCK_M, p);
    AlignedGood(ids, x.count, w, topK, m);
    if r.Filled(p) { TokenInRange(r, x.count, m, p); }
    hide SortedIds, ExpertIds;
  }

  lemma OtherToken(x: Experts, ids: seq<int>, w: Vec, topK: nat, a: Mat, t: nat, col: int, i: nat)
    requires i < RowStart(t, topK) || RowStart(t, topK) + topK <= i
    ensures FlatTerm(x, ids, w, topK, a, t, col)(i) == 0.0
  {
    if topK > 0 { DivMod(i, topK); }
  }

  lemma OwnToken(x: Experts, ids: seq<int>, w: Vec, topK: nat, a: Mat, t: nat, col: int, i: nat)
    requires i < topK
    ensures Selected(x, ids, w, topK, a, t, col)(i) == FlatTerm(x, ids, w, topK, a, t, col)(RowStart(t, topK) + i)
  {
    hide Times, Experts.Output;
    DivUnique(RowStart(t, topK) + i, topK, t);
    hide RowStart;
  }

  lemma TokenRange(t: nat, m: nat, topK: nat)
    requires t < m
    ensures 0 <= RowStart(t, topK) && RowStart(t, topK) + topK <= RowStart(m, topK)
  {
    MulMono(0, t, topK);
    BlockFits(t, m, topK);
  }

  lemma TokenTerms(x: Experts, ids: seq<int>, w: Vec, topK: nat, m: nat, a: Mat, t: nat, col: int)
    requires |ids| == RowStart(m, topK) && t < m
    ensures Sum(0, |ids|, FlatTerm(x, ids, w, topK, a, t, col)) == MoeOut(x, ids, w, topK, a, t, col)
  {
    hide FlatTerm, RowStart, Selected;
    var f, lo := FlatTerm(x, ids, w, topK, a, t, col), RowStart(t, topK);
    TokenRange(t, m, topK);
    SumSplit(0, lo, |ids|, f);
    SumSplit(lo, lo + topK, |ids|, f);
    forall i | 0 <= i < lo || lo + topK <= i < |ids| ensures f(i) == 0.0 {
      OtherToken(x, ids, w, topK, a, t, col, i);
    }
    SumZero(0, lo, f);
    SumZero(lo + topK, |ids|, f);
    forall i | 0 <= i < topK ensures Selected(x, ids, w, topK, a, t, col)(i) == f(lo + i) {
      OwnToken(x, ids, w, topK, a, t, col, i);
    }
    SumShift(lo, topK, f, Selected(x, ids, w, topK, a, t, col));
  }

  /** Summing over the block-aligned layout, padding and all, is the routed sum:
      each valid (token, selection) is counted once, with its own expert, and
      nothing else is. */
  lemma AlignedMeansRouted(x: Experts, ids: seq<int>, w: Vec, topK: nat, m: nat, a: Mat, t: nat, col: int)
    requires |ids| == RowStart(m, topK) && t < m
    ensures Combined(x, Aligned(ids, x.count, w, topK), a, t, col) == MoeOut(x, ids, w, topK, a, t, col)
  {
    hide FlatTerm, SortedIds, ExpertIds, MoeOut, Contribution;
    var r, g := Aligned(ids, x.count, w, topK), FlatTerm(x, ids, w, topK, a, t, col);
    forall p | 0 <= p < |r.rows| ensures Contribution(x, r, a, t, col)(p) == RowTerm(|ids|, r.rows[p], g) {
      ContributionIsFlat(x, ids, w, topK, m, a, t, col, p);
    }
    SumOverIsSum(r.rows, |ids|, g, Contribution(x, r, a, t, col));
    SumOverSorted(ids, x.count, BLOCK_M, g);
    BelowTerms(x, ids, w, topK, a, t, col);
    TokenTerms(x, ids, w, topK, m, a, t, col);
  }

  lemma BelowTerms(x: Experts, ids: seq<int>, w: Vec, topK: nat, a: Mat, t: int, col: int)
    ensures var g := FlatTerm(x, ids, w, topK, a, t, col);
      Sum(0, |ids|, Below(ids, x.count, g)) == Sum(0, |ids|, g)
  {
    var g := FlatTerm(x, ids, w, topK, a, t, col);
    forall f: int | 0 <= f < |ids| ensures Below(ids, x.count, g)(f) == g(f) {
      if !Routed(ids[f], x.count) { assert g(f) == 0.0; }
    }
    SumCongr(0, |ids|, Below(ids, x.count, g), g);
  }
}
