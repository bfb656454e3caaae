/** The routed mixture of experts written out, from the packed bytes to the output:
    which byte, half, scale, bias and projection goes where. */
module MoeFormula {
  import opened Formats
  import opened IntArith
  import opened MoeAlign
  import opened MoeFused
  import opened MoeSpec
  import opened MoeWeights
  import opened RealArith
  import opened Sums

  /** A scale byte's power of two, as each side of the code has it for 0xFF. */
  function ScaleOf(reader: Reader, s: int): real {
    if s != 255 then Pow2(s - 127) else if reader.Kernel? then 0.0 else 1.0
  }

  /** v is column c of row `row`, from byte c / 2 and scale c / group of the row. */
  ghost predicate EntryIs(p: Packed, num: Numerics, row: int, c: nat, v: real) {
    p.group > 0 && CodeIs(p, num, row * (p.k / 2) + c / 2, row * (p.k / p.group) + c / p.group, c, v)
  }

  /** v is column c of byte i, its low half for an even column and its high half for an
      odd one, times scale g, rounded. */
  ghost predicate CodeIs(p: Packed, num: Numerics, i: int, g: int, c: nat, v: real) {
    0 <= i < |p.bytes| && 0 <= g < |p.scales| &&
    v == num.bf16(Times(num.fp4(if c % 2 == 0 then p.bytes[i] % 16 else p.bytes[i] / 16 % 16), ScaleOf(num.reader, p.scales[g])))
  }

  /** w holds the rows of p from `first` on. */
  ghost predicate Decodes(w: Mat, p: Packed, num: Numerics, first: int, rows: nat) {
    forall n: nat, c: nat :: n < rows && c < p.k ==> EntryIs(p, num, first + n, c, w(n, c))
  }

  lemma ScaleRead(num: Numerics, s: int)
    ensures ScaleOf(num.reader, s) == num.Scale(s)
  {
    DecodersAgreeIff(s);
    hide Pow2;
  }

  lemma EntryAt(p: Packed, num: Numerics, row: nat, c: nat, v: real)
    requires p.Good() && row < p.rows && c < p.k
    ensures EntryIs(p, num, row, c, v) <==> v == p.At(num, row, c)
  {
    HalfFits(c, p.k);
    GroupBelow(0, c, p.group, p.k);
    RowFits(row, p.rows, p.k / 2, c / 2);
    RowFits(row, p.rows, p.k / p.group, c / p.group);
    var i, g := RowStart(row, p.k / 2) + c / 2, RowStart(row, p.k / p.group) + c / p.group;
    assert i == row * (p.k / 2) + c / 2 && g == row * (p.k / p.group) + c / p.group;
    assert EntryIs(p, num, row, c, v) <==> CodeIs(p, num, i, g, c, v);
    CodeIsValue(p, num, i, g, c, v);
    hide EntryIs, RowStart, CodeIs, Value;
    assert p.ByteAt(row, c) == p.bytes[i] && p.ScaleAt(row, c / p.group) == p.scales[g];
  }

  lemma CodeIsValue(p: Packed, num: Numerics, i: int, g: int, c: nat, v: real)
    requires 0 <= i < |p.bytes| && 0 <= g < |p.scales|
    ensures CodeIs(p, num, i, g, c, v) <==> v == Value(num, p.bytes[i], c, p.scales[g])
  {
    ScaleRead(num, p.scales[g]);
    hide Times, ScaleOf, Numerics.Scale;
  }

  lemma DecodedAt(w: Mat, p: Packed, num: Numerics, first: nat, rows: nat, n: nat, c: nat)
    requires p.Good() && Decodes(w, p, num, first, rows) && first + rows <= p.rows && n < rows && c < p.k
    ensures w(n, c) == p.At(num, first + n, c)
  {
    hide EntryIs, Packed.At;
    EntryAt(p, num, first + n, c, w(n, c));
  }

  lemma HalfFits(c: nat, k: nat)
    requires c < k && k % 2 == 0
    ensures 0 <= c / 2 < k / 2
  {
  }

  /** What the fused kernel's 64-column tiles show in column c: the same byte and half, but
      the scale of the tile's first group plus the byte's even column within the tile
      over the group size. */
  lemma TileEntry(p: Packed, num: Numerics, row: nat, c: nat, v: real)
    requires p.Good() && row < p.rows && c < p.k && p.k % 64 == 0
    ensures v == Tiled(p).At(num, row, c) <==>
      CodeIs(p, num, row * (p.k / 2) + c / 2, row * (p.k / p.group) + (c / 64 * 64 / p.group + c % 64 / 2 * 2 / p.group), c, v)
  {
    var start, part := TileParts(c);
    DivUnique(c, 64, c / 64);
    TileBase(start, part);
    TiledAt(num, p, row, start, part);
    HalfFits(c, p.k);
    GroupBelow(start, part / 2 * 2, p.group, p.k);
    var own := TileGroup(start, part, p.group);
    RowFits(row, p.rows, p.k / 2, c / 2);
    RowFits(row, p.rows, p.k / p.group, own);
    var i, g := RowStart(row, p.k / 2) + c / 2, RowStart(row, p.k / p.group) + own;
    assert i == row * (p.k / 2) + c / 2 && g == row * (p.k / p.group) + own;
    assert p.ByteAt(row, c) == p.bytes[i] && p.ScaleAt(row, own) == p.scales[g];
    SameValue(num, p.bytes[i], part, c, p.scales[g]);
    CodeIsValue(p, num, i, g, c, v);
    hide Tiled, CodeIs, Value;
  }

  /** Expert e's matrices: gate rows, then up rows, then its down rows in w2. */
  datatype Matrices = Matrices(w13: Mat, w2: Mat)

  ghost predicate ExpertIs(x: Experts, e: nat, m: Matrices) {
    && Decodes(m.w13, x.w13, x.num, e * (2 * x.ispp), 2 * x.ispp)
    && Decodes(m.w2, x.w2, x.num, e * x.hidden, x.hidden)
  }

  lemma ExpertWeights(x: Experts, e: nat, m: Matrices)
    requires x.Good() && e < x.count && ExpertIs(x, e, m)
    ensures forall n: nat, c: nat :: n < 2 * x.ispp && c < x.hidden ==> m.w13(n, c) == x.W13At(e, n, c)
    ensures forall n: nat, c: nat :: n < x.hidden && c < x.ispp ==> m.w2(n, c) == x.W2At(e, n, c)
  {
    BlockFits(e, x.count, 2 * x.ispp);
    BlockFits(e, x.count, x.hidden);
    MulMono(0, e, 2 * x.ispp);
    MulMono(0, e, x.hidden);
    hide Packed.At, Decodes;
    forall n: nat, c: nat | n < 2 * x.ispp && c < x.hidden ensures m.w13(n, c) == x.W13At(e, n, c) {
      DecodedAt(m.w13, x.w13, x.num, RowStart(e, 2 * x.ispp), 2 * x.ispp, n, c);
    }
    forall n: nat, c: nat | n < x.hidden && c < x.ispp ensures m.w2(n, c) == x.W2At(e, n, c) {
      DecodedAt(m.w2, x.w2, x.num, RowStart(e, x.hidden), x.hidden, n, c);
    }
  }

  lemma DecodesIf(w: Mat, p: Packed, num: Numerics, first: nat, rows: nat)
    requires p.Good() && first + rows <= p.rows
    requires forall n: nat, c: nat :: n < rows && c < p.k ==> w(n, c) == p.At(num, first + n, c)
    ensures Decodes(w, p, num, first, rows)
  {
    hide Packed.At, EntryIs;
    forall n: nat, c: nat | n < rows && c < p.k ensures EntryIs(p, num, first + n, c, w(n, c)) {
      EntryAt(p, num, first + n, c, w(n, c));
    }
  }

  /** The one matrix pair it is. */
  lemma MatricesOf(x: Experts, e: nat) returns (m: Matrices)
    requires x.Good() && e < x.count
    ensures ExpertIs(x, e, m)
  {
    m := Matrices((n, c) => x.W13At(e, n, c), (n, c) => x.W2At(e, n, c));
    BlockFits(e, x.count, 2 * x.ispp);
    BlockFits(e, x.count, x.hidden);
    MulMono(0, e, 2 * x.ispp);
    MulMono(0, e, x.hidden);
    hide Packed.At, Decodes;
    DecodesIf(m.w13, x.w13, x.num, RowStart(e, 2 * x.ispp), 2 * x.ispp);
    DecodesIf(m.w2, x.w2, x.num, RowStart(e, x.hidden), x.hidden);
  }

  /** The sum over i < n of f(i) g(i). */
  function Inner(n: nat, f: Vec, g: Vec): real { Sum(0, n, i => f(i) * g(i)) }

  /** h is the activation row: gate projection n with bias n first, up projection n (row
      ispp + n) with bias ispp + n second. */
  ghost predicate Activates(x: Experts, e: nat, m: Matrices, v: Vec, h: Vec) {
    forall n: nat :: n < x.ispp ==>
      h(n) == x.num.bf16(x.num.act(Inner(x.hidden, v, Row(m.w13, n)) + x.b13(e, n),
                                   Inner(x.hidden, v, Row(m.w13, x.ispp + n)) + x.b13(e, x.ispp + n)))
  }

  lemma ProjectionIs(x: Experts, e: nat, m: Matrices, v: Vec, n: nat)
    requires x.Good() && e < x.count && ExpertIs(x, e, m) && n < 2 * x.ispp
    ensures Inner(x.hidden, v, Row(m.w13, n)) == x.GateUp(e, v, n)
  {
    ExpertWeights(x, e, m);
    hide ExpertIs, Experts.W13At;
    var g, w := Row(m.w13, n), x.W13Row(e, n);
    forall c | 0 <= c < x.hidden ensures g(c) == w(c) {
      assert m.w13(n, c) == x.W13At(e, n, c);
    }
    DotCongr(0, x.hidden, v, g, v, w);
    InnerIsDot(x.hidden, v, g);
  }

  lemma InnerIsDot(n: nat, f: Vec, g: Vec)
    ensures Inner(n, f, g) == Dot(0, n, f, g)
  {
    SumCongr(0, n, i => f(i) * g(i), i => f(i) * g(i));
  }

  lemma ActivationIs(x: Experts, e: nat, m: Matrices, v: Vec, h: Vec, n: nat)
    requires x.Good() && e < x.count && ExpertIs(x, e, m) && Activates(x, e, m, v, h) && n < x.ispp
    ensures h(n) == x.ActVec(e, v)(n)
  {
    hide Inner, ExpertIs, Experts.GateUp, Experts.ActVec, Row;
    ProjectionIs(x, e, m, v, n);
    ProjectionIs(x, e, m, v, x.ispp + n);
    ActVecAt(x, e, v, n);
    assert x.ispp + n == n + x.ispp;
  }

  /** What expert e gives the token v in column col. */
  lemma ExpertFormula(x: Experts, e: nat, m: Matrices, v: Vec, h: Vec, col: nat)
    requires x.Good() && e < x.count && ExpertIs(x, e, m) && Activates(x, e, m, v, h) && col < x.hidden
    ensures x.Output(e, v, col) == Inner(x.ispp, h, Row(m.w2, col)) + x.b2(e, col)
  {
    ExpertWeights(x, e, m);
    var f, g, p, q := h, x.ActVec(e, v), Row(m.w2, col), x.W2Row(e, col);
    hide ExpertIs, Activates, Experts.ActVec, Experts.W2At;
    forall n | 0 <= n < x.ispp ensures f(n) == g(n) { ActivationIs(x, e, m, v, h, n); }
    forall n | 0 <= n < x.ispp ensures p(n) == q(n) { assert m.w2(col, n) == x.W2At(e, col, n); }
    DotCongr(0, x.ispp, f, p, g, q);
    InnerIsDot(x.ispp, h, p);
  }

  /** A real row of the activation buffer: its expert is its block's, its token its flat
      index over topK. */
  lemma ActivationFormula(x: Experts, r: Routing, a: Mat, p: nat, m: Matrices, h: Vec, n: nat)
    requires x.Good() && p < |r.rows| && r.rows[p] < r.n && r.topK > 0 && 0 <= p / 16 < |r.owners|
    requires 0 <= r.owners[p / 16] < x.count && n < x.ispp
    requires ExpertIs(x, r.owners[p / 16], m) && Activates(x, r.owners[p / 16], m, Row(a, r.rows[p] / r.topK), h)
    ensures ActAt(x, r, a, p, n) == h(n)
  {
    ActivationIs(x, r.owners[p / 16], m, Row(a, r.rows[p] / r.topK), h, n);
    hide ExpertIs, Activates, Experts.ActVec;
  }

  /** Token t's output: over its selections, those whose expert exists, the routing weight
      times that expert's output. m and h are the experts' matrices and activation rows. */
  lemma RoutedFormula(x: Experts, ids: seq<int>, w: Vec, topK: nat, a: Mat, t: nat, col: nat,
                      m: int -> Matrices, h: int -> Vec, y: Vec)
    requires x.Good() && col < x.hidden && t * topK + topK <= |ids|
    requires forall e: nat :: e < x.count ==> ExpertIs(x, e, m(e)) && Activates(x, e, m(e), Row(a, t), h(e))
    requires forall e: nat :: e < x.count ==> y(e) == Inner(x.ispp, h(e), Row(m(e).w2, col)) + x.b2(e, col)
    ensures MoeOut(x, ids, w, topK, a, t, col) == Sum(0, topK, sel => Chosen(ids, x.count, y, w, t * topK + sel))
  {
    hide ExpertIs, Activates, Experts.Output, Inner;
    var f, g := Selected(x, ids, w, topK, a, t, col), sel => Chosen(ids, x.count, y, w, t * topK + sel);
    MulMono(0, t, topK);
    forall sel | 0 <= sel < topK ensures f(sel) == g(sel) {
      var i := t * topK + sel;
      if 0 <= ids[i] < x.count { ExpertFormula(x, ids[i], m(ids[i]), Row(a, t), h(ids[i]), col); }
      assert f(sel) == SelectedAt(x, ids, w, topK, a, t, col, sel);
    }
    SumCongr(0, topK, f, g);
  }

  /** w(i) y(ids[i]) if the expert exists. */
  function Chosen(ids: seq<int>, count: nat, y: Vec, w: Vec, i: int): real {
    if 0 <= i < |ids| && 0 <= ids[i] < count then w(i) * y(ids[i]) else 0.0
  }

  /** So for whatever AlignAndFuse or DistMoeTp leaves. */
  lemma OutputFormula(x: Experts, ids: seq<int>, w: Vec, topK: nat, tokens: nat, a: Mat, out: array2<real>, t: nat, col: nat,
                      m: int -> Matrices, h: int -> Vec, y: Vec)
    requires x.Good() && t < tokens && col < x.hidden && |ids| == RowStart(tokens, topK)
    requires RoutedOutput(x, ids, w, topK, tokens, a, out)
    requires forall e: nat :: e < x.count ==> ExpertIs(x, e, m(e)) && Activates(x, e, m(e), Row(a, t), h(e))
    requires forall e: nat :: e < x.count ==> y(e) == Inner(x.ispp, h(e), Row(m(e).w2, col)) + x.b2(e, col)
    ensures out[t, col] == Sum(0, topK, sel => Chosen(ids, x.count, y, w, t * topK + sel))
  {
    BlockFits(t, tokens, topK);
    RoutedFormula(x, ids, w, topK, a, t, col, m, h, y);
    hide ExpertIs, Activates, MoeOut, Inner;
  }
}
