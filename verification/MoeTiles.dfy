/** The layer the fused kernel's weight tiles show, and when that is the layer itself. */
module MoeTiles {
  import opened Formats
  import opened IntArith
  import opened MoeAlign
  import opened MoeSpec
  import opened MoeWeights
  import opened RealArith
  import opened Sums

  const TILE := 64

  /** The shapes the kernel is for: its tiles cover them without remainder. */
  ghost predicate WholeTiles(x: Experts) {
    x.Good() && x.hidden % TILE == 0 && x.ispp % TILE == 0
  }

  /** The layer the fused kernel multiplies by: the weights its tiles show
      (MoeWeights.Tiled), scale bytes by its own decoder. */
  function AsTiled(x: Experts): (y: Experts)
    ensures y.num == x.num.(reader := Kernel) && y.count == x.count && y.hidden == x.hidden && y.ispp == x.ispp
    ensures y.b13 == x.b13 && y.b2 == x.b2
  {
    x.(num := x.num.(reader := Kernel), w13 := Tiled(x.w13), w2 := Tiled(x.w2))
  }

  lemma TiledW13At(x: Experts, e: nat, n: nat, start: nat, c: nat)
    requires x.Good() && e < x.count && n < 2 * x.ispp && start % TILE == 0 && c < TILE && start + c < x.hidden
    ensures RowStart(e, 2 * x.ispp) >= 0
    ensures AsTiled(x).W13At(e, n, start + c)
      == TileAt(x.w13, x.num.(reader := Kernel), RowStart(e, 2 * x.ispp) + n, start, c)
  {
    RowFits(e, x.count, 2 * x.ispp, n);
    MulMono(0, e, 2 * x.ispp);
    TiledAt(x.num.(reader := Kernel), x.w13, RowStart(e, 2 * x.ispp) + n, start, c);
    hide RowStart, TileAt, Tiled, Packed.At;
  }

  lemma TiledW2At(x: Experts, e: nat, n: nat, start: nat, c: nat)
    requires x.Good() && e < x.count && n < x.hidden && start % TILE == 0 && c < TILE && start + c < x.ispp
    ensures RowStart(e, x.hidden) >= 0
    ensures AsTiled(x).W2At(e, n, start + c)
      == TileAt(x.w2, x.num.(reader := Kernel), RowStart(e, x.hidden) + n, start, c)
  {
    RowFits(e, x.count, x.hidden, n);
    MulMono(0, e, x.hidden);
    TiledAt(x.num.(reader := Kernel), x.w2, RowStart(e, x.hidden) + n, start, c);
    hide RowStart, TileAt, Tiled, Packed.At;
  }

  // ---- Fitting groups, and no zero-group mark: nothing changes --------------------------

  /** No scale byte is 0xFF, which the two sides read differently. */
  predicate NoMark(x: Experts) { 255 !in x.w13.scales && 255 !in x.w2.scales }

  lemma UnmarkedAt(num: Numerics, w: Packed, row: int, c: int)
    requires 255 !in w.scales
    ensures w.At(num.(reader := Stages), row, c) == w.At(num.(reader := Kernel), row, c)
  {
    if w.group != 0 {
      var s := w.ScaleAt(row, c / w.group);
      assert s != 255;
      DecodersAgreeIff(s);
      hide Packed.ScaleAt, Packed.ByteAt, Ue8m0, StageUe8m0;
    }
  }

  lemma FittingWeight(num: Numerics, reader: Reader, w: Packed, row: nat, c: nat)
    requires w.Good() && GroupFits(w.group) && row < w.rows && c < w.k && (reader.Kernel? || 255 !in w.scales)
    ensures Tiled(w).At(num.(reader := Kernel), row, c) == w.At(num.(reader := reader), row, c)
  {
    TileIsMatrix(num.(reader := Kernel), w, row, c);
    if reader.Stages? { UnmarkedAt(num, w, row, c); }
    hide Tiled, Packed.At, GroupFits;
  }

  lemma FittingExpert(x: Experts, reader: Reader, e: nat)
    requires x.Good() && GroupFits(x.w13.group) && (reader.Kernel? || NoMark(x)) && e < x.count
    ensures SameExpert(AsTiled(x), e, ReadBy(x, reader), e)
  {
    var y, z := AsTiled(x), ReadBy(x, reader);
    hide Tiled, Packed.At, GroupFits;
    forall n: nat, c: nat | n < 2 * x.ispp && c < x.hidden ensures y.W13At(e, n, c) == z.W13At(e, n, c) {
      RowFits(e, x.count, 2 * x.ispp, n);
      FittingWeight(x.num, reader, x.w13, RowStart(e, 2 * x.ispp) + n, c);
    }
    forall n: nat, c: nat | n < x.hidden && c < x.ispp ensures y.W2At(e, n, c) == z.W2At(e, n, c) {
      RowFits(e, x.count, x.hidden, n);
      FittingWeight(x.num, reader, x.w2, RowStart(e, x.hidden) + n, c);
    }
  }

  lemma FittingRouted(x: Experts, reader: Reader, ids: seq<int>, w: Vec, topK: nat, a: Mat, t: int, col: nat)
    requires x.Good() && GroupFits(x.w13.group) && (reader.Kernel? || NoMark(x)) && col < x.hidden
    ensures MoeOut(AsTiled(x), ids, w, topK, a, t, col) == MoeOut(ReadBy(x, reader), ids, w, topK, a, t, col)
  {
    var y, z := AsTiled(x), ReadBy(x, reader);
    hide AsTiled, ReadBy, NoMark, GroupFits, Experts.Output, RowStart, Times;
    var f, g := Selected(y, ids, w, topK, a, t, col), Selected(z, ids, w, topK, a, t, col);
    forall sel | 0 <= sel < topK ensures f(sel) == g(sel) {
      var i := RowStart(t, topK) + sel;
      if 0 <= i < |ids| && Routed(ids[i], x.count) {
        FittingExpert(x, reader, ids[i]);
        SameOutput(y, ids[i], z, ids[i], Row(a, t), col);
      }
      assert SelectedAt(y, ids, w, topK, a, t, col, sel) == SelectedAt(z, ids, w, topK, a, t, col, sel);
    }
    SumCongr(0, topK, f, g);
  }

  lemma FittingCombined(x: Experts, r: Routing, m: nat, a: Mat, t: int, col: nat)
    requires x.Good() && GroupFits(x.w13.group) && r.Good(x.count, m) && col < x.hidden
    ensures Combined(AsTiled(x), r, a, t, col) == Combined(ReadBy(x, Kernel), r, a, t, col)
  {
    var y, z := AsTiled(x), ReadBy(x, Kernel);
    hide AsTiled, ReadBy, Experts.Output, Times;
    var f, g := Contribution(y, r, a, t, col), Contribution(z, r, a, t, col);
    forall p | 0 <= p < |r.rows| ensures f(p) == g(p) {
      if r.Real(p) {
        FittingExpert(x, Kernel, r.Owner(p));
        SameOutput(y, r.Owner(p), z, r.Owner(p), Row(a, t), col);
      }
    }
    SumCongr(0, |r.rows|, f, g);
  }
}
