/** When the fused kernel and the distributed forward agree: exactly which group
    sizes and scale bytes, over every layer and input. */
module MoeAgreement {
  import opened ExpLaws
  import opened Formats
  import opened IntArith
  import opened MoeAlign
  import opened MoeSpec
  import opened MoeTiles
  import opened MoeWeights
  import opened RealArith
  import opened Sums

  // ---- One weight, one activation ------------------------------------------------------

  /** The weight nibble code and scale byte s stand for. */
  function Weight(num: Numerics, nibble: int, s: int): real { num.bf16(Times(num.fp4(nibble), num.Scale(s))) }

  /** The activation of equal gate and up projections. */
  function Gated(num: Numerics, v: real): real { num.bf16(num.act(v, v)) }

  /** What a column adds whose weights are all v, and whose down weights are d. */
  function Yield(num: Numerics, v: real, d: real): real { Times(Gated(num, v), d) }

  /** Some code tells the two readings of 0xFF apart. */
  ghost predicate TellsMark(num: Numerics) {
    exists code :: 0 <= code < 16 && MarkTold(num, code)
  }

  predicate MarkTold(num: Numerics, code: int) {
    var z, w := Weight(num.(reader := Kernel), code, 255), Weight(num.(reader := Stages), code, 255);
    Yield(num, z, z) != Yield(num, w, w)
  }

  /** Some code tells two of the scale bytes apart, and some weight is not zero. */
  ghost predicate TellsScales(num: Numerics, scales: set<int>) {
    && (exists code, s1, s2 :: 0 <= code < 16 && s1 in scales && s2 in scales && ScalesTold(num, code, s1, s2))
    && (exists code, s :: 0 <= code < 16 && s in scales && Weight(num.(reader := Stages), code, s) != 0.0)
  }

  predicate ScalesTold(num: Numerics, code: int, s1: int, s2: int) {
    Gated(num, Weight(num.(reader := Stages), code, s1)) != Gated(num, Weight(num.(reader := Stages), code, s2))
  }

  // ---- Layers with one column that tells -----------------------------------------------

  function Cells(n: int, f: int -> int): (s: seq<int>)
    ensures n >= 0 ==> |s| == n
    ensures forall i :: 0 <= i < |s| ==> s[i] == f(i)
  {
    seq(if n < 0 then 0 else n, i => f(i))
  }

  /** A matrix of one code, whose scales are given by their index within the row. */
  function ScaledBy(rows: nat, k: nat, group: nat, code: int, scale: int -> int): (w: Packed)
    requires 0 < group
    ensures w.rows == rows && w.k == k && w.group == group
  {
    Packed(Cells(RowStart(rows, k / 2), _ => 17 * code),
           Cells(RowStart(rows, k / group), i => if k / group > 0 then scale(i % (k / group)) else scale(0)), rows, k, group)
  }

  lemma ScaledGood(rows: nat, k: nat, group: nat, code: int, scale: int -> int)
    requires 0 < group && k % group == 0 && k % 2 == 0
    ensures ScaledBy(rows, k, group, code, scale).Good()
  {
    QuotientNat(k, group);
    MulMono(0, rows, k / 2);
    MulMono(0, rows, k / group);
  }

  lemma ScaledScale(rows: nat, k: nat, group: nat, code: int, scale: int -> int, row: nat, g: nat)
    requires 0 < group && row < rows && g < k / group
    ensures ScaledBy(rows, k, group, code, scale).ScaleAt(row, g) == scale(g)
  {
    var n := k / group;
    RowFits(row, rows, n, g);
    DivUnique(RowStart(row, n) + g, n, row);
  }

  lemma ScaledNibble(rows: nat, k: nat, group: nat, code: int, scale: int -> int, row: nat, c: nat)
    requires 0 < group && row < rows && c < k && k % 2 == 0 && 0 <= code < 16
    ensures Nibble(ScaledBy(rows, k, group, code, scale).ByteAt(row, c), c) == code
  {
    RowFits(row, rows, k / 2, c / 2);
    assert 17 * code % 16 == code && 17 * code / 16 % 16 == code;
    hide RowStart;
  }

  /** The group column c is in. */
  function GroupIndex(c: int, group: nat): int
    requires 0 < group
  {
    c / group
  }

  /** What such a matrix holds, and what its tiles show. */
  lemma ScaledAt(num: Numerics, rows: nat, k: nat, group: nat, code: int, scale: int -> int, row: nat, start: nat, c: nat)
    requires 0 < group && k % group == 0 && k % 2 == 0 && row < rows && 0 <= code < 16
    requires start % TILE == 0 && c < TILE && start + c < k
    ensures var w := ScaledBy(rows, k, group, code, scale);
      && w.At(num, row, start + c) == Weight(num, code, scale(GroupIndex(start + c, group)))
      && Tiled(w).At(num, row, start + c) == Weight(num, code, scale(TileGroup(start, c, group)))
  {
    var w := ScaledBy(rows, k, group, code, scale);
    ScaledGood(rows, k, group, code, scale);
    GroupBelow(0, start + c, group, k);
    GroupBelow(start, c / 2 * 2, group, k);
    ScaledScale(rows, k, group, code, scale, row, (start + c) / group);
    ScaledScale(rows, k, group, code, scale, row, TileGroup(start, c, group));
    ScaledNibble(rows, k, group, code, scale, row, start + c);
    TiledAt(num, w, row, start, c);
    TileBase(start, c);
    hide Tiled, ScaledBy, TileGroup, Packed.ScaleAt, Packed.ByteAt, Nibble;
  }

  /** One expert with no biases. */
  function Layer(num: Numerics, hidden: nat, ispp: nat, group: nat, code: int, scale: int -> int, down: int, s: int): Experts
    requires 0 < group
  {
    Experts(num, 1, hidden, ispp, ScaledBy(2 * ispp, hidden, group, code, scale), ScaledBy(hidden, ispp, group, down, _ => s),
            (_, _) => 0.0, (_, _) => 0.0)
  }

  /** A layer the code can be given, with scale bytes among `scales`. */
  ghost predicate Encoded(x: Experts, scales: set<int>) {
    && (forall i :: 0 <= i < |x.w13.bytes| ==> 0 <= x.w13.bytes[i] < 256)
    && (forall i :: 0 <= i < |x.w2.bytes| ==> 0 <= x.w2.bytes[i] < 256)
    && (forall i :: 0 <= i < |x.w13.scales| ==> x.w13.scales[i] in scales)
    && (forall i :: 0 <= i < |x.w2.scales| ==> x.w2.scales[i] in scales)
  }

  /** The shapes the kernel and the plan accept. */
  predicate WholeShape(hidden: nat, ispp: nat, group: nat) {
    && 0 < hidden && hidden % TILE == 0 && 0 < ispp && ispp % TILE == 0
    && 0 < group && hidden % group == 0 && ispp % group == 0
  }

  lemma LayerGood(num: Numerics, hidden: nat, ispp: nat, group: nat, code: int, scale: int -> int, down: int, s: int, scales: set<int>)
    requires WholeShape(hidden, ispp, group) && 0 <= code < 16 && 0 <= down < 16
    requires s in scales && forall g :: scale(g) in scales
    ensures var x := Layer(num, hidden, ispp, group, code, scale, down, s);
      WholeTiles(x) && x.hidden == hidden && x.ispp == ispp && x.w13.group == group && x.num == num && Encoded(x, scales)
  {
    EvenTile(hidden);
    EvenTile(ispp);
    ScaledGood(2 * ispp, hidden, group, code, scale);
    ScaledGood(hidden, ispp, group, down, _ => s);
    ScaledBytes(2 * ispp, hidden, group, code, scale, scales);
    ScaledBytes(hidden, ispp, group, down, _ => s, scales);
    hide ScaledBy, Packed.Good;
  }

  lemma ScaledBytes(rows: nat, k: nat, group: nat, code: int, scale: int -> int, scales: set<int>)
    requires 0 < group && 0 <= code < 16 && forall g :: scale(g) in scales
    ensures var w := ScaledBy(rows, k, group, code, scale);
      && (forall i :: 0 <= i < |w.bytes| ==> 0 <= w.bytes[i] < 256)
      && (forall i :: 0 <= i < |w.scales| ==> w.scales[i] in scales)
  {
    hide RowStart;
  }

  // ---- Its output for one token --------------------------------------------------------

  /** One token that is 1 in column col. */
  ghost function Spike(col: int): Mat { (t, c) => Delta(col, c) }

  lemma SpikeGate(y: Experts, col: nat, n: int)
    requires col < y.hidden
    ensures y.GateUp(0, Row(Spike(col), 0), n) == y.W13At(0, n, col)
  {
    var f, g, h := Row(Spike(col), 0), Row(Delta, col), y.W13Row(0, n);
    hide Dot;
    forall c: int ensures f(c) == g(c) {
      assert Spike(col)(0, c) == Delta(col, c);
    }
    DotCongr(0, y.hidden, f, h, g, h);
    DotDelta(0, y.hidden, col, h);
  }

  /** Every gate and up weight of the one expert is v at column col, and every down
      weight of output 0 is d. */
  ghost predicate Adds(y: Experts, col: nat, v: real, d: real) {
    && y.count == 1 && col < y.hidden
    && (forall n :: y.b13(0, n) == 0.0 && y.b2(0, n) == 0.0)
    && (forall n :: 0 <= n < 2 * y.ispp ==> y.W13At(0, n, col) == v)
    && (forall n :: 0 <= n < y.ispp ==> y.W2At(0, 0, n) == d)
  }

  lemma AddsAct(y: Experts, col: nat, v: real, d: real, n: nat)
    requires Adds(y, col, v, d) && n < y.ispp
    ensures y.ActVec(0, Row(Spike(col), 0))(n) == Gated(y.num, v)
  {
    hide Experts.GateUp, Experts.Activated, Experts.ActVec, Experts.W13At, Spike, Gated, Row;
    assert y.W13At(0, n, col) == v && y.W13At(0, n + y.ispp, col) == v;
    ActVecAt(y, 0, Row(Spike(col), 0), n);
    SpikeGate(y, col, n);
    SpikeGate(y, col, n + y.ispp);
    AddsActivated(y, col, v, d, n);
  }

  lemma AddsActivated(y: Experts, col: nat, v: real, d: real, n: int)
    requires Adds(y, col, v, d)
    ensures y.Activated(0, v, v, n) == Gated(y.num, v)
  {
    assert y.b13(0, n) == 0.0 && y.b13(0, n + y.ispp) == 0.0;
    hide Experts.W13At, Experts.W2At;
  }

  lemma {:induction false} DotOfEqual(n: nat, f: Vec, h: Vec, c: real, d: real)
    requires forall i :: 0 <= i < n ==> f(i) == c && h(i) == d
    ensures Dot(0, n, f, h) == Times(n as real, Times(c, d))
  {
    if n > 0 {
      DotOfEqual(n - 1, f, h, c, d);
      DotStep(0, n - 1, f, h);
      hide Dot;
      assert f(n - 1) * h(n - 1) == Times(c, d);
      TimesSucc((n - 1) as real, n as real, Times(c, d));
    }
  }

  lemma TimesSucc(m: real, n: real, c: real)
    requires n == m + 1.0
    ensures Times(n, c) == Times(m, c) + c
  {
  }

  lemma AddsDown(y: Experts, col: nat, v: real, d: real)
    requires Adds(y, col, v, d)
    ensures y.Down(0, y.ActVec(0, Row(Spike(col), 0)), 0) == Times(y.ispp as real, Yield(y.num, v, d))
  {
    var f, h := y.ActVec(0, Row(Spike(col), 0)), y.W2Row(0, 0);
    forall n | 0 <= n < y.ispp ensures f(n) == Gated(y.num, v) && h(n) == d {
      AddsAct(y, col, v, d, n);
      assert h(n) == y.W2At(0, 0, n);
    }
    hide Experts.ActVec, Experts.W2Row, Adds, Spike, Gated;
    DotOfEqual(y.ispp, f, h, Gated(y.num, v), d);
  }

  lemma AddsOutput(y: Experts, col: nat, v: real, d: real)
    requires Adds(y, col, v, d)
    ensures MoeOut(y, [0], Ones(), 1, Spike(col), 0, 0) == Times(y.ispp as real, Yield(y.num, v, d))
  {
    AddsDown(y, col, v, d);
    hide Experts.Down, Experts.ActVec, Spike, Yield, MoeOut;
    OneToken(y, [0], Spike(col));
  }

  lemma LayerGates(num: Numerics, hidden: nat, ispp: nat, group: nat, code: int, scale: int -> int, down: int, s: int,
                   start: nat, c: nat, n: nat)
    requires WholeShape(hidden, ispp, group) && 0 <= code < 16 && n < 2 * ispp
    requires start % TILE == 0 && c < TILE && start + c < hidden
    ensures var x := Layer(num, hidden, ispp, group, code, scale, down, s);
      && ReadBy(x, Stages).W13At(0, n, start + c)
        == Weight(num.(reader := Stages), code, scale(GroupIndex(start + c, group)))
      && AsTiled(x).W13At(0, n, start + c) == Weight(num.(reader := Kernel), code, scale(TileGroup(start, c, group)))
  {
    EvenTile(hidden);
    hide ScaledBy, Tiled, Packed.At, TileGroup, GroupIndex, Weight;
    ScaledAt(num.(reader := Stages), 2 * ispp, hidden, group, code, scale, n, start, c);
    ScaledAt(num.(reader := Kernel), 2 * ispp, hidden, group, code, scale, n, start, c);
  }

  lemma LayerDown(num: Numerics, hidden: nat, ispp: nat, group: nat, code: int, scale: int -> int, down: int, s: int, n: nat)
    requires WholeShape(hidden, ispp, group) && 0 <= down < 16 && n < ispp
    ensures var x := Layer(num, hidden, ispp, group, code, scale, down, s);
      && ReadBy(x, Stages).W2At(0, 0, n) == Weight(num.(reader := Stages), down, s)
      && AsTiled(x).W2At(0, 0, n) == Weight(num.(reader := Kernel), down, s)
  {
    EvenTile(ispp);
    hide ScaledBy, Tiled, Packed.At, TileGroup, GroupIndex, Weight;
    var start, p := TileParts(n);
    ScaledAt(num.(reader := Stages), hidden, ispp, group, down, _ => s, 0, start, p);
    ScaledAt(num.(reader := Kernel), hidden, ispp, group, down, _ => s, 0, start, p);
  }

  lemma AddsIf(y: Experts, col: nat, v: real, d: real)
    requires y.count == 1 && col < y.hidden
    requires forall n :: y.b13(0, n) == 0.0 && y.b2(0, n) == 0.0
    requires forall n: nat :: n < 2 * y.ispp ==> y.W13At(0, n, col) == v
    requires forall n: nat :: n < y.ispp ==> y.W2At(0, 0, n) == d
    ensures Adds(y, col, v, d)
  {
    hide Experts.W13At, Experts.W2At;
  }

  /** What the distributed stages see in a layer's column. */
  lemma StagesSee(x: Experts, num: Numerics, hidden: nat, ispp: nat, group: nat, code: int, scale: int -> int, down: int,
                  s: int, start: nat, c: nat)
    requires WholeShape(hidden, ispp, group) && x == Layer(num, hidden, ispp, group, code, scale, down, s)
    requires 0 <= code < 16 && 0 <= down < 16 && start % TILE == 0 && c < TILE && start + c < hidden
    ensures Adds(ReadBy(x, Stages), start + c, Weight(num.(reader := Stages), code, scale(GroupIndex(start + c, group))),
                 Weight(num.(reader := Stages), down, s))
  {
    hide ReadBy, ScaledBy;
    var y, col := ReadBy(x, Stages), start + c;
    assert y.count == 1 && y.hidden == hidden && y.ispp == ispp && forall n :: y.b13(0, n) == 0.0 && y.b2(0, n) == 0.0;
    var v, d := Weight(num.(reader := Stages), code, scale(GroupIndex(start + c, group))), Weight(num.(reader := Stages), down, s);
    hide Layer, Weight, GroupIndex, TileGroup, WholeShape, Experts.W13At, Experts.W2At, Adds;
    forall n: nat | n < 2 * ispp ensures y.W13At(0, n, col) == v {
      LayerGates(num, hidden, ispp, group, code, scale, down, s, start, c, n);
    }
    forall n: nat | n < ispp ensures y.W2At(0, 0, n) == d {
      LayerDown(num, hidden, ispp, group, code, scale, down, s, n);
    }
    AddsIf(y, col, v, d);
  }

  /** And what the fused kernel sees. */
  lemma KernelSees(x: Experts, num: Numerics, hidden: nat, ispp: nat, group: nat, code: int, scale: int -> int, down: int,
                   s: int, start: nat, c: nat)
    requires WholeShape(hidden, ispp, group) && x == Layer(num, hidden, ispp, group, code, scale, down, s)
    requires 0 <= code < 16 && 0 <= down < 16 && start % TILE == 0 && c < TILE && start + c < hidden
    ensures Adds(AsTiled(x), start + c, Weight(num.(reader := Kernel), code, scale(TileGroup(start, c, group))),
                 Weight(num.(reader := Kernel), down, s))
  {
    hide AsTiled, ScaledBy;
    var y, col := AsTiled(x), start + c;
    assert y.count == 1 && y.hidden == hidden && y.ispp == ispp && forall n :: y.b13(0, n) == 0.0 && y.b2(0, n) == 0.0;
    var v, d := Weight(num.(reader := Kernel), code, scale(TileGroup(start, c, group))), Weight(num.(reader := Kernel), down, s);
    hide Layer, Weight, TileGroup, GroupIndex, WholeShape, Experts.W13At, Experts.W2At, Adds;
    forall n: nat | n < 2 * ispp ensures y.W13At(0, n, col) == v {
      LayerGates(num, hidden, ispp, group, code, scale, down, s, start, c, n);
    }
    forall n: nat | n < ispp ensures y.W2At(0, 0, n) == d {
      LayerDown(num, hidden, ispp, group, code, scale, down, s, n);
    }
    AddsIf(y, col, v, d);
  }

  lemma Unequal(n: real, a: real, b: real)
    requires n > 0.0 && a != b
    ensures Times(n, a) != Times(n, b)
  {
    assert n * (a - b) != 0.0;
  }

  // ---- The two ways to differ ----------------------------------------------------------

  /** The fused kernel and the distributed forward give x different outputs for the
      input a, routed to expert 0 with weight 1. */
  ghost predicate Differ(x: Experts, a: Mat) {
    MoeOut(AsTiled(x), [0], Ones(), 1, a, 0, 0) != MoeOut(ReadBy(x, Stages), [0], Ones(), 1, a, 0, 0)
  }

  lemma DifferIf(x: Experts, col: nat, v: real, d: real, v2: real, d2: real)
    requires x.ispp > 0 && Adds(AsTiled(x), col, v, d) && Adds(ReadBy(x, Stages), col, v2, d2)
    requires Yield(x.num, v, d) != Yield(x.num, v2, d2)
    ensures Differ(x, Spike(col))
  {
    AddsOutput(AsTiled(x), col, v, d);
    AddsOutput(ReadBy(x, Stages), col, v2, d2);
    assert Yield(AsTiled(x).num, v, d) == Yield(x.num, v, d) && Yield(ReadBy(x, Stages).num, v2, d2) == Yield(x.num, v2, d2);
    hide Yield, MoeOut, Adds, AsTiled, ReadBy, Times;
    Unequal(x.ispp as real, Yield(x.num, v, d), Yield(x.num, v2, d2));
  }

  /** A layer whose scale bytes are all 0xFF, for any shape and group size. */
  lemma MarkDiffers(num: Numerics, hidden: nat, ispp: nat, group: nat) returns (x: Experts, a: Mat)
    requires WholeShape(hidden, ispp, group) && TellsMark(num)
    ensures WholeTiles(x) && x.hidden == hidden && x.ispp == ispp && x.w13.group == group && x.num == num
    ensures Encoded(x, {255}) && Differ(x, a)
  {
    var code :| 0 <= code < 16 && MarkTold(num, code);
    x := Layer(num, hidden, ispp, group, code, _ => 255, code, 255);
    a := Spike(0);
    LayerGood(num, hidden, ispp, group, code, _ => 255, code, 255, {255});
    StagesSee(x, num, hidden, ispp, group, code, _ => 255, code, 255, 0, 0);
    KernelSees(x, num, hidden, ispp, group, code, _ => 255, code, 255, 0, 0);
    var z, w := Weight(num.(reader := Kernel), code, 255), Weight(num.(reader := Stages), code, 255);
    assert Yield(num, z, z) != Yield(num, w, w);
    hide Adds, Differ, Weight, Yield;
    DifferIf(x, 0, z, z, w, w);
  }

  /** Scale byte s1 everywhere but in one group. */
  function Mark(own: int, s1: int, s2: int): int -> int { g => if g == own then s2 else s1 }

  lemma SameWeight(num: Numerics, code: int, s: int)
    requires s != 255
    ensures Weight(num.(reader := Kernel), code, s) == Weight(num.(reader := Stages), code, s)
  {
    DecodersAgreeIff(s);
    hide Ue8m0, StageUe8m0;
  }

  /** A layer for a group size that does not fit the tiles. */
  lemma UnfitDiffers(num: Numerics, hidden: nat, ispp: nat, group: nat, scales: set<int>) returns (x: Experts, a: Mat)
    requires WholeShape(hidden, ispp, group) && !GroupFits(group) && 255 !in scales && TellsScales(num, scales)
    ensures WholeTiles(x) && x.hidden == hidden && x.ispp == ispp && x.w13.group == group && x.num == num
    ensures Encoded(x, scales) && Differ(x, a)
  {
    var code, s1, s2 :| 0 <= code < 16 && s1 in scales && s2 in scales && ScalesTold(num, code, s1, s2);
    var down, s :| 0 <= down < 16 && s in scales && Weight(num.(reader := Stages), down, s) != 0.0;
    var start, c := UnfitGroup(hidden, group);
    var own := GroupIndex(start + c, group);
    x := Layer(num, hidden, ispp, group, code, Mark(own, s1, s2), down, s);
    a := Spike(start + c);
    LayerGood(num, hidden, ispp, group, code, Mark(own, s1, s2), down, s, scales);
    hide TileGroup, GroupIndex, Weight, Adds, Differ, GroupFits;
    UnfitColumn(x, num, hidden, ispp, group, code, s1, s2, down, s, own, start, c);
  }

  lemma UnfitColumn(x: Experts, num: Numerics, hidden: nat, ispp: nat, group: nat, code: int, s1: int, s2: int, down: int,
                    s: int, own: int, start: nat, c: nat)
    requires WholeShape(hidden, ispp, group) && start % TILE == 0 && c < TILE && start + c < hidden
    requires 0 <= code < 16 && 0 <= down < 16 && s1 != 255 && s2 != 255 && s != 255
    requires own == GroupIndex(start + c, group) != TileGroup(start, c, group)
    requires x == Layer(num, hidden, ispp, group, code, Mark(own, s1, s2), down, s)
    requires ScalesTold(num, code, s1, s2) && Weight(num.(reader := Stages), down, s) != 0.0
    ensures Differ(x, Spike(start + c))
  {
    assert x.ispp > 0 && x.num == num;
    var v, v2 := Weight(num.(reader := Stages), code, s1), Weight(num.(reader := Stages), code, s2);
    var d := Weight(num.(reader := Stages), down, s);
    assert Gated(num, v) != Gated(num, v2);
    hide TileGroup, GroupIndex, Weight, Adds, Differ, Layer, AsTiled, ReadBy, Gated;
    StagesSee(x, num, hidden, ispp, group, code, Mark(own, s1, s2), down, s, start, c);
    KernelSees(x, num, hidden, ispp, group, code, Mark(own, s1, s2), down, s, start, c);
    SameWeight(num, code, s1);
    SameWeight(num, down, s);
    UnequalTimes(Gated(num, v), Gated(num, v2), d);
    DifferIf(x, start + c, v, d, v2, d);
  }

  lemma UnequalTimes(a: real, b: real, d: real)
    requires a != b && d != 0.0
    ensures Times(a, d) != Times(b, d)
  {
    assert (a - b) * d != 0.0;
  }

  // ---- Exactly when they agree -----------------------------------------------------------

  /** On every layer of these formats, this shape, group size and scale bytes, and on
      every input, the fused kernel computes what the distributed forward does. */
  ghost predicate AlwaysAgree(num: Numerics, hidden: nat, ispp: nat, group: nat, scales: set<int>) {
    forall x: Experts, ids: seq<int>, w: Vec, topK: nat, a: Mat, t: int, c: nat ::
      WholeTiles(x) && x.hidden == hidden && x.ispp == ispp && x.w13.group == group && x.num == num
      && Encoded(x, scales) && c < hidden ==>
      MoeOut(AsTiled(x), ids, w, topK, a, t, c) == MoeOut(ReadBy(x, Stages), ids, w, topK, a, t, c)
  }

  /** They do exactly when the group size fits the tiles and 0xFF is not among the
      scale bytes, for any formats that can tell the difference. */
  lemma AgreeIff(num: Numerics, hidden: nat, ispp: nat, group: nat, scales: set<int>)
    requires WholeShape(hidden, ispp, group) && TellsMark(num) && (255 in scales || TellsScales(num, scales))
    ensures AlwaysAgree(num, hidden, ispp, group, scales) <==> GroupFits(group) && 255 !in scales
  {
    hide AsTiled, ReadBy, MoeOut, GroupFits, TellsMark, TellsScales;
    if GroupFits(group) && 255 !in scales {
      forall x: Experts, ids: seq<int>, w: Vec, topK: nat, a: Mat, t: int, c: nat
        | WholeTiles(x) && x.hidden == hidden && x.ispp == ispp && x.w13.group == group && x.num == num
          && Encoded(x, scales) && c < hidden
        ensures MoeOut(AsTiled(x), ids, w, topK, a, t, c) == MoeOut(ReadBy(x, Stages), ids, w, topK, a, t, c)
      {
        FittingRouted(x, Stages, ids, w, topK, a, t, c);
      }
    } else {
      var x, a := SomeDiffer(num, hidden, ispp, group, scales);
      assert Differ(x, a);
    }
  }

  lemma SomeDiffer(num: Numerics, hidden: nat, ispp: nat, group: nat, scales: set<int>) returns (x: Experts, a: Mat)
    requires WholeShape(hidden, ispp, group) && TellsMark(num) && (255 in scales || TellsScales(num, scales))
    requires !GroupFits(group) || 255 in scales
    ensures WholeTiles(x) && x.hidden == hidden && x.ispp == ispp && x.w13.group == group && x.num == num
    ensures Encoded(x, scales) && Differ(x, a)
  {
    hide TellsMark, TellsScales, Differ, GroupFits, WholeTiles;
    if 255 in scales {
      x, a := MarkDiffers(num, hidden, ispp, group);
    } else {
      x, a := UnfitDiffers(num, hidden, ispp, group, scales);
    }
  }

  // ---- The repository's own formats ------------------------------------------------------

  /** E2M1 nibbles, any monotone rounding that keeps 0, 1/2, 1 and 2 (as bf16 does),
      and the SwiGLU activation of a non-decreasing exp. */
  ghost predicate RealFormats(num: Numerics, exp: real -> real) {
    && (forall n :: 0 <= n < 16 && n % 8 < 6 ==> num.fp4(n) == Fp4(n))
    && (forall a, b :: a <= b ==> num.bf16(a) <= num.bf16(b))
    && num.bf16(0.0) == 0.0 && num.bf16(0.5) == 0.5 && num.bf16(1.0) == 1.0 && num.bf16(2.0) == 2.0
    && IsExp(exp) && exp(-1.0) <= exp(0.0)
    && (forall g, u :: num.act(g, u) == SwiGlu(exp, g, u))
  }

  /** 1 / (1 + z) and 4 / (1 + z z), for 0 < z <= 1. */
  lemma Silus(z: real, y: real)
    requires 0.0 < z <= 1.0 && y == Times(z, z)
    ensures 0.5 <= 1.0 / (1.0 + z) <= 1.0 && y > 0.0 && 2.0 <= 2.0 / (1.0 + y) * 2.0
  {
    SquareBounds(z, y);
    hide Times;
    Reciprocal(1.0 + z);
    Reciprocal(1.0 + y);
    assert 2.0 / (1.0 + y) == 2.0 * (1.0 / (1.0 + y));
  }

  lemma SquareBounds(z: real, y: real)
    requires 0.0 < z <= 1.0 && y == Times(z, z)
    ensures 0.0 < y <= 1.0
  {
    assert Times(1.0, z) == z;
    hide Times;
    TimesSign(z, z);
    TimesSign(1.0 - z, z);
    TimesDiff(1.0, z, z);
  }

  lemma TimesSign(a: real, d: real)
    requires d > 0.0
    ensures a >= 0.0 ==> Times(a, d) >= 0.0
    ensures a > 0.0 ==> Times(a, d) > 0.0
  {
  }

  lemma Reciprocal(d: real)
    requires 1.0 < d <= 2.0
    ensures 0.5 <= 1.0 / d <= 1.0
  {
    var q := 1.0 / d;
    assert q * d == 1.0;
    Sign(q - 0.5, d);
    Sign(1.0 - q, d);
  }

  lemma Sign(a: real, d: real)
    requires d > 0.0
    ensures a >= 0.0 <==> a * d >= 0.0
  {
  }

  /** The activation of weight 1 is at least 1/2 and at most 1; of weight 2, at least 2. */
  lemma RealGates(num: Numerics, exp: real -> real)
    requires RealFormats(num, exp)
    ensures 0.5 <= Gated(num, 1.0) <= 1.0 && Gated(num, 2.0) >= 2.0
  {
    var z := exp(-1.0);
    ExpZero(exp);
    assert ExpAt(exp, -1.0, -1.0);
    Silus(z, Times(z, z));
    assert num.act(1.0, 1.0) == SwiGlu(exp, 1.0, 1.0) == 1.0 / (1.0 + z) * 1.0;
    assert exp(-2.0) == Times(z, z) > 0.0;
    hide Times;
    assert num.act(2.0, 2.0) == SwiGlu(exp, 2.0, 2.0) == 2.0 / (1.0 + exp(-2.0)) * 2.0;
  }

  /** Nibble 2 has weight 1 under scale byte 127 and 2 under 128; under 0xFF the
      fused kernel reads 0 and the distributed stages 1. */
  lemma RealWeights(num: Numerics, exp: real -> real)
    requires RealFormats(num, exp)
    ensures Weight(num.(reader := Stages), 2, 127) == 1.0 && Weight(num.(reader := Stages), 2, 128) == 2.0
    ensures Weight(num.(reader := Kernel), 2, 255) == 0.0 && Weight(num.(reader := Stages), 2, 255) == 1.0
  {
    assert num.fp4(2) == Fp4(2) == 1.0;
    assert Pow2(0) == 1.0 && Pow2(1) == 2.0 * Pow2(0);
    assert num.(reader := Stages).Scale(127) == 1.0 && num.(reader := Stages).Scale(128) == 2.0;
  }

  /** So for the repository's formats: they agree on every layer and input exactly
      when the group size fits the tiles and no scale byte is 0xFF. */
  lemma RealAgreeIff(num: Numerics, exp: real -> real, hidden: nat, ispp: nat, group: nat, scales: set<int>)
    requires RealFormats(num, exp) && WholeShape(hidden, ispp, group) && {127, 128} <= scales
    ensures AlwaysAgree(num, hidden, ispp, group, scales) <==> GroupFits(group) && 255 !in scales
  {
    RealGates(num, exp);
    RealWeights(num, exp);
    hide RealFormats, Weight, Gated, GroupFits, AlwaysAgree;
    assert MarkTold(num, 2);
    assert ScalesTold(num, 2, 127, 128);
    AgreeIff(num, hidden, ispp, group, scales);
  }
}
