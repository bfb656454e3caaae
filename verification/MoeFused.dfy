/** The fused kernel: gate/up tiles, activation, down tiles and routed combine,
    tile by tile. */
module MoeFused {
  import opened IntArith
  import opened MoeAlign
  import opened MoeSpec
  import opened MoeTiles
  import opened MoeWeights
  import opened RealArith
  import opened Sums

  // ---- Tiles -----------------------------------------------------------------------

  lemma TileIndex(row0: nat, n: nat, stride: nat, base: int, c: int)
    requires base == RowStart(row0, stride) + c
    ensures base + RowStart(n, stride) == RowStart(row0 + n, stride) + c
  {
    MulSum(row0, n, stride);
  }

  /** One byte of a tile: both nibbles, with one scale. */
  method DequantByte(num: Numerics, w: Packed, pBase: int, sBase: int, ghost row0: nat, start: nat, n: nat, kp: nat)
      returns (lo: real, hi: real)
    requires w.Good() && row0 + n < w.rows && start + 2 * kp + 1 < w.k && start % TILE == 0
    requires pBase == RowStart(row0, w.k / 2) + start / 2 && sBase == RowStart(row0, w.k / w.group) + start / w.group
    ensures lo == TileAt(w, num, row0 + n, start, 2 * kp)
    ensures hi == TileAt(w, num, row0 + n, start, 2 * kp + 1)
  {
    hide RowStart, Value, TileAt;
    var byteStride, scaleStride := w.k / 2, w.k / w.group;
    TileIndex(row0, n, byteStride, pBase, start / 2);
    TileIndex(row0, n, scaleStride, sBase, start / w.group);
    PairValues(num, w, row0 + n, start, kp);
    var pb := w.bytes[pBase + RowStart(n, byteStride) + kp];
    var sc := w.scales[sBase + RowStart(n, scaleStride) + kp * 2 / w.group];
    lo := Value(num, pb, 0, sc);
    hi := Value(num, pb, 1, sc);
  }

  lemma PairValues(num: Numerics, w: Packed, row: nat, start: nat, kp: nat)
    requires w.Good() && row < w.rows && start + 2 * kp + 1 < w.k && start % TILE == 0
    ensures var i := RowStart(row, w.k / 2) + start / 2 + kp;
      var g := RowStart(row, w.k / w.group) + start / w.group + kp * 2 / w.group;
      && 0 <= i < |w.bytes| && 0 <= g < |w.scales|
      && TileAt(w, num, row, start, 2 * kp) == Value(num, w.bytes[i], 0, w.scales[g])
      && TileAt(w, num, row, start, 2 * kp + 1) == Value(num, w.bytes[i], 1, w.scales[g])
  {
    hide RowStart, Value, Nibble;
    ByteColumn(w, row, start, kp);
    ScaleColumn(w, row, start, kp);
    var i := RowStart(row, w.k / 2) + start / 2 + kp;
    var g := RowStart(row, w.k / w.group) + start / w.group + kp * 2 / w.group;
    SameValue(num, w.bytes[i], 0, 2 * kp, w.scales[g]);
    SameValue(num, w.bytes[i], 1, 2 * kp + 1, w.scales[g]);
    hide TileGroup;
  }

  lemma ByteColumn(w: Packed, row: nat, start: nat, kp: nat)
    requires w.Good() && row < w.rows && start + 2 * kp + 1 < w.k && start % TILE == 0
    ensures var i := RowStart(row, w.k / 2) + start / 2 + kp;
      && 0 <= i < |w.bytes|
      && w.ByteAt(row, start + 2 * kp) == w.bytes[i] && w.ByteAt(row, start + (2 * kp + 1)) == w.bytes[i]
  {
    DivMod(start, TILE);
    assert (start + 2 * kp) / 2 == start / 2 + kp && (start + (2 * kp + 1)) / 2 == start / 2 + kp;
    RowFits(row, w.rows, w.k / 2, start / 2 + kp);
    hide RowStart;
  }

  lemma ScaleColumn(w: Packed, row: nat, start: nat, kp: nat)
    requires w.Good() && row < w.rows && start + 2 * kp + 1 < w.k
    ensures var g := TileGroup(start, 2 * kp, w.group);
      && g == start / w.group + kp * 2 / w.group && g == TileGroup(start, 2 * kp + 1, w.group)
      && 0 <= RowStart(row, w.k / w.group) + g < |w.scales|
      && w.ScaleAt(row, g) == w.scales[RowStart(row, w.k / w.group) + g]
  {
    var g := TileGroup(start, 2 * kp, w.group);
    assert 2 * kp / 2 * 2 == 2 * kp && (2 * kp + 1) / 2 * 2 == 2 * kp;
    GroupBelow(start, 2 * kp, w.group, w.k);
    RowFits(row, w.rows, w.k / w.group, g);
    hide RowStart;
  }

  /** _dequant_weight_tile: a 64 x 64 tile, transposed. */
  method DequantTile(num: Numerics, w: Packed, pBase: int, sBase: int, ghost row0: nat, start: nat)
      returns (tile: array2<real>)
    requires w.Good() && row0 + TILE <= w.rows && start + TILE <= w.k && start % TILE == 0
    requires pBase == RowStart(row0, w.k / 2) + start / 2 && sBase == RowStart(row0, w.k / w.group) + start / w.group
    ensures fresh(tile) && tile.Length0 == tile.Length1 == TILE
    ensures forall c, n :: 0 <= c < TILE && 0 <= n < TILE ==> tile[c, n] == TileAt(w, num, row0 + n, start, c)
  {
    hide RowStart, TileAt;
    tile := new real[TILE, TILE]((_, _) => 0.0);
    for n := 0 to TILE
      invariant forall c, j :: 0 <= c < TILE && 0 <= j < n ==> tile[c, j] == TileAt(w, num, row0 + j, start, c)
    {
      for kp := 0 to TILE / 2
        invariant forall c, j :: 0 <= c < TILE && 0 <= j < n ==> tile[c, j] == TileAt(w, num, row0 + j, start, c)
        invariant forall c :: 0 <= c < 2 * kp ==> tile[c, n] == TileAt(w, num, row0 + n, start, c)
      {
        var lo, hi := DequantByte(num, w, pBase, sBase, row0, start, n, kp);
        tile[2 * kp, n] := lo;
        tile[2 * kp + 1, n] := hi;
      }
    }
  }

  /** The rows of A a block reads, columns start.. of them; zeros for padding rows. */
  method LoadInput(r: Routing, a: Mat, tb: nat, start: nat) returns (tile: array2<real>)
    requires tb + BLOCK_M <= |r.rows|
    ensures fresh(tile) && tile.Length0 == BLOCK_M && tile.Length1 == TILE
    ensures forall m, k :: 0 <= m < BLOCK_M && 0 <= k < TILE ==> tile[m, k] == r.InputAt(a, tb + m, start + k)
  {
    tile := new real[BLOCK_M, TILE]((_, _) => 0.0);
    for m := 0 to BLOCK_M
      invariant forall i, k :: 0 <= i < m && 0 <= k < TILE ==> tile[i, k] == r.InputAt(a, tb + i, start + k)
      invariant forall i, k :: m <= i < BLOCK_M && 0 <= k < TILE ==> tile[i, k] == 0.0
    {
      if r.rows[tb + m] < r.n {
        var token := r.Token(tb + m);
        forall k | 0 <= k < TILE {
          tile[m, k] := a(token, start + k);
        }
      }
    }
  }

  /** The same from the activation buffer. */
  method LoadAct(r: Routing, act: array2<real>, tb: nat, start: nat) returns (tile: array2<real>)
    requires tb + BLOCK_M <= |r.rows| == act.Length0 && start + TILE <= act.Length1
    ensures fresh(tile) && tile.Length0 == BLOCK_M && tile.Length1 == TILE
    ensures forall m, k :: 0 <= m < BLOCK_M && 0 <= k < TILE ==>
      tile[m, k] == if r.Filled(tb + m) then act[tb + m, start + k] else 0.0
  {
    tile := new real[BLOCK_M, TILE]((_, _) => 0.0);
    for m := 0 to BLOCK_M
      invariant forall i, k :: 0 <= i < m && 0 <= k < TILE ==>
        tile[i, k] == if r.Filled(tb + i) then act[tb + i, start + k] else 0.0
      invariant forall i, k :: m <= i < BLOCK_M && 0 <= k < TILE ==> tile[i, k] == 0.0
    {
      if r.rows[tb + m] < r.n {
        forall k | 0 <= k < TILE {
          tile[m, k] := act[tb + m, start + k];
        }
      }
    }
  }

  lemma DotNone(lo: int, f: Vec, g: Vec)
    ensures Dot(lo, lo, f, g) == 0.0
  {
  }

  /** Accumulators start at the empty dot products. */
  lemma NothingAccumulated(a: Mat, w: Mat)
    ensures forall m, n :: Dot(0, 0, Row(a, m), Row(w, n)) == 0.0
  {
    forall m, n ensures Dot(0, 0, Row(a, m), Row(w, n)) == 0.0 { DotNone(0, Row(a, m), Row(w, n)); }
  }

  /** One entry: the 64 products of a tile row and a tile column, added up in order. */
  method TileDot(tileA: array2<real>, tile: array2<real>, start: nat, m: nat, n: nat, ghost a: Vec, ghost w: Vec)
      returns (dot: real)
    requires m < tileA.Length0 && tileA.Length1 == tile.Length0 == TILE && n < tile.Length1
    requires forall k :: 0 <= k < TILE ==> tileA[m, k] == a(start + k) && tile[k, n] == w(start + k)
    ensures dot == Dot(start, start + TILE, a, w)
  {
    dot := 0.0;
    for k := 0 to TILE
      invariant dot == Dot(start, start + k, a, w)
    {
      DotStep(start, k, a, w);
      dot := dot + tileA[m, k] * tile[k, n];
    }
  }

  /** acc += tileA x tile. */
  method AccumulateTile(acc: array2<real>, tileA: array2<real>, tile: array2<real>, start: nat, ghost a: Mat, ghost w: Mat)
    requires acc.Length0 == tileA.Length0 == BLOCK_M && acc.Length1 == tileA.Length1 == TILE
    requires tile.Length0 == tile.Length1 == TILE && acc != tileA && acc != tile
    requires forall m, k :: 0 <= m < BLOCK_M && 0 <= k < TILE ==> tileA[m, k] == a(m, start + k)
    requires forall k, n :: 0 <= k < TILE && 0 <= n < TILE ==> tile[k, n] == w(n, start + k)
    requires forall m, n :: 0 <= m < BLOCK_M && 0 <= n < TILE ==> acc[m, n] == Dot(0, start, Row(a, m), Row(w, n))
    modifies acc
    ensures forall m, n :: 0 <= m < BLOCK_M && 0 <= n < TILE ==>
      acc[m, n] == Dot(0, start + TILE, Row(a, m), Row(w, n))
  {
    hide Dot;
    for m := 0 to BLOCK_M
      invariant forall i, j :: 0 <= i < m && 0 <= j < TILE ==> acc[i, j] == Dot(0, start + TILE, Row(a, i), Row(w, j))
      invariant forall i, j :: m <= i < BLOCK_M && 0 <= j < TILE ==> acc[i, j] == Dot(0, start, Row(a, i), Row(w, j))
      invariant forall i, k :: 0 <= i < BLOCK_M && 0 <= k < TILE ==> tileA[i, k] == a(i, start + k)
      invariant forall k, j :: 0 <= k < TILE && 0 <= j < TILE ==> tile[k, j] == w(j, start + k)
    {
      for n := 0 to TILE
        invariant forall i, j :: 0 <= i < m && 0 <= j < TILE ==> acc[i, j] == Dot(0, start + TILE, Row(a, i), Row(w, j))
        invariant forall i, j :: m < i < BLOCK_M && 0 <= j < TILE ==> acc[i, j] == Dot(0, start, Row(a, i), Row(w, j))
        invariant forall j :: 0 <= j < n ==> acc[m, j] == Dot(0, start + TILE, Row(a, m), Row(w, j))
        invariant forall j :: n <= j < TILE ==> acc[m, j] == Dot(0, start, Row(a, m), Row(w, j))
        invariant forall i, k :: 0 <= i < BLOCK_M && 0 <= k < TILE ==> tileA[i, k] == a(i, start + k)
        invariant forall k, j :: 0 <= k < TILE && 0 <= j < TILE ==> tile[k, j] == w(j, start + k)
      {
        var dot := TileDot(tileA, tile, start, m, n, Row(a, m), Row(w, n));
        DotSplit(0, start, start + TILE, Row(a, m), Row(w, n));
        acc[m, n] := acc[m, n] + dot;
      }
    }
  }

  // ---- Stage 0: gate, up, activation ---------------------------------------------------

  function InputMat(r: Routing, a: Mat, tb: int): Mat { (m: int, c: int) => r.InputAt(a, tb + m, c) }

  function W13Mat(x: Experts, e: int, n0: int): Mat { (n: int, c: int) => x.W13At(e, n0 + n, c) }

  function W2Mat(x: Experts, e: int, n0: int): Mat { (n: int, c: int) => x.W2At(e, n0 + n, c) }

  lemma RowBase(e: nat, perExpert: nat, row: nat, stride: nat, start: nat, unit: nat)
    requires unit > 0
    ensures e * (perExpert * stride) + row * stride + start / unit
      == RowStart(RowStart(e, perExpert) + row, stride) + start / unit
  {
    MulRotates(e, perExpert, stride);
    MulSum(e * perExpert, row, stride);
  }

  lemma RowInExperts(e: nat, count: nat, perExpert: nat, row: nat, width: nat)
    requires e < count && row + width <= perExpert
    ensures 0 <= RowStart(e, perExpert) + row && RowStart(e, perExpert) + row + width <= RowStart(count, perExpert)
  {
    BlockFits(e, count, perExpert);
    MulMono(0, e, perExpert);
  }

  /** One 64-row tile of w13, columns start.. */
  method W13Tile(x: Experts, e: nat, row: nat, start: nat) returns (tile: array2<real>)
    requires WholeTiles(x) && e < x.count && row + TILE <= 2 * x.ispp && start + TILE <= x.hidden && start % TILE == 0
    ensures fresh(tile) && tile.Length0 == tile.Length1 == TILE
    ensures forall k, n :: 0 <= k < TILE && 0 <= n < TILE ==> tile[k, n] == W13Mat(AsTiled(x), e, row)(n, start + k)
  {
    var bytes, scales := 2 * x.ispp * (x.hidden / 2), 2 * x.ispp * (x.hidden / x.w13.group);
    var p := e * bytes + row * (x.hidden / 2) + start / 2;
    var s := e * scales + row * (x.hidden / x.w13.group) + start / x.w13.group;
    RowBase(e, 2 * x.ispp, row, x.hidden / 2, start, 2);
    RowBase(e, 2 * x.ispp, row, x.hidden / x.w13.group, start, x.w13.group);
    RowInExperts(e, x.count, 2 * x.ispp, row, TILE);
    hide AsTiled, RowStart, TileAt, Value, Experts.W13At, Experts.W2At;
    ghost var row0 := RowStart(e, 2 * x.ispp) + row;
    tile := DequantTile(x.num.(reader := Kernel), x.w13, p, s, row0, start);
    forall k, n | 0 <= k < TILE && 0 <= n < TILE ensures tile[k, n] == W13Mat(AsTiled(x), e, row)(n, start + k) {
      TiledW13At(x, e, row + n, start, k);
      assert row0 + n == RowStart(e, 2 * x.ispp) + (row + n);
    }
  }

  method W2Tile(x: Experts, e: nat, row: nat, start: nat) returns (tile: array2<real>)
    requires WholeTiles(x) && e < x.count && row + TILE <= x.hidden && start + TILE <= x.ispp && start % TILE == 0
    ensures fresh(tile) && tile.Length0 == tile.Length1 == TILE
    ensures forall k, n :: 0 <= k < TILE && 0 <= n < TILE ==> tile[k, n] == W2Mat(AsTiled(x), e, row)(n, start + k)
  {
    var bytes, scales := x.hidden * (x.ispp / 2), x.hidden * (x.ispp / x.w2.group);
    var p := e * bytes + row * (x.ispp / 2) + start / 2;
    var s := e * scales + row * (x.ispp / x.w2.group) + start / x.w2.group;
    RowBase(e, x.hidden, row, x.ispp / 2, start, 2);
    RowBase(e, x.hidden, row, x.ispp / x.w2.group, start, x.w2.group);
    RowInExperts(e, x.count, x.hidden, row, TILE);
    hide AsTiled, RowStart, TileAt, Value, Experts.W13At, Experts.W2At;
    ghost var row0 := RowStart(e, x.hidden) + row;
    tile := DequantTile(x.num.(reader := Kernel), x.w2, p, s, row0, start);
    forall k, n | 0 <= k < TILE && 0 <= n < TILE ensures tile[k, n] == W2Mat(AsTiled(x), e, row)(n, start + k) {
      TiledW2At(x, e, row + n, start, k);
      assert row0 + n == RowStart(e, x.hidden) + (row + n);
    }
  }

  /** acc_gate and acc_up of one block of 16 rows and 64 columns. */
  method GateUpBlock(x: Experts, r: Routing, a: Mat, e: nat, tb: nat, n0: nat)
      returns (gate: array2<real>, up: array2<real>)
    requires WholeTiles(x) && e < x.count && n0 + TILE <= x.ispp && tb + BLOCK_M <= |r.rows|
    ensures fresh(gate) && fresh(up) && gate != up
    ensures gate.Length0 == up.Length0 == BLOCK_M && gate.Length1 == up.Length1 == TILE
    ensures forall m, n :: 0 <= m < BLOCK_M && 0 <= n < TILE ==>
      gate[m, n] == Dot(0, x.hidden, Row(InputMat(r, a, tb), m), Row(W13Mat(AsTiled(x), e, n0), n))
    ensures forall m, n :: 0 <= m < BLOCK_M && 0 <= n < TILE ==>
      up[m, n] == Dot(0, x.hidden, Row(InputMat(r, a, tb), m), Row(W13Mat(AsTiled(x), e, n0 + x.ispp), n))
  {
    hide AsTiled, InputMat, W13Mat, Row, Dot;
    NothingAccumulated(InputMat(r, a, tb), W13Mat(AsTiled(x), e, n0));
    NothingAccumulated(InputMat(r, a, tb), W13Mat(AsTiled(x), e, n0 + x.ispp));
    gate := new real[BLOCK_M, TILE]((_, _) => 0.0);
    up := new real[BLOCK_M, TILE]((_, _) => 0.0);
    ghost var input, wg, wu := InputMat(r, a, tb), W13Mat(AsTiled(x), e, n0), W13Mat(AsTiled(x), e, n0 + x.ispp);
    for kb := 0 to x.hidden / TILE
      invariant forall m, n :: 0 <= m < BLOCK_M && 0 <= n < TILE ==>
        gate[m, n] == Dot(0, kb * TILE, Row(input, m), Row(wg, n))
      invariant forall m, n :: 0 <= m < BLOCK_M && 0 <= n < TILE ==>
        up[m, n] == Dot(0, kb * TILE, Row(input, m), Row(wu, n))
    {
      GateUpStep(x, r, a, e, tb, n0, kb * TILE, gate, up);
    }
  }

  /** One k step of the block. */
  method GateUpStep(x: Experts, r: Routing, a: Mat, e: nat, tb: nat, n0: nat, start: nat,
                    gate: array2<real>, up: array2<real>)
    requires WholeTiles(x) && e < x.count && n0 + TILE <= x.ispp && tb + BLOCK_M <= |r.rows|
    requires start % TILE == 0 && start + TILE <= x.hidden && gate != up
    requires gate.Length0 == up.Length0 == BLOCK_M && gate.Length1 == up.Length1 == TILE
    requires forall m, n :: 0 <= m < BLOCK_M && 0 <= n < TILE ==>
      gate[m, n] == Dot(0, start, Row(InputMat(r, a, tb), m), Row(W13Mat(AsTiled(x), e, n0), n))
    requires forall m, n :: 0 <= m < BLOCK_M && 0 <= n < TILE ==>
      up[m, n] == Dot(0, start, Row(InputMat(r, a, tb), m), Row(W13Mat(AsTiled(x), e, n0 + x.ispp), n))
    modifies gate, up
    ensures forall m, n :: 0 <= m < BLOCK_M && 0 <= n < TILE ==>
      gate[m, n] == Dot(0, start + TILE, Row(InputMat(r, a, tb), m), Row(W13Mat(AsTiled(x), e, n0), n))
    ensures forall m, n :: 0 <= m < BLOCK_M && 0 <= n < TILE ==>
      up[m, n] == Dot(0, start + TILE, Row(InputMat(r, a, tb), m), Row(W13Mat(AsTiled(x), e, n0 + x.ispp), n))
  {
    hide AsTiled, Dot, W13Mat, Row;
    ghost var input := InputMat(r, a, tb);
    var tileA := LoadInput(r, a, tb, start);
    assert forall m, k :: 0 <= m < BLOCK_M && 0 <= k < TILE ==> tileA[m, k] == input(m, start + k);
    hide InputMat;
    var tileGate := W13Tile(x, e, n0, start);
    AccumulateTile(gate, tileA, tileGate, start, input, W13Mat(AsTiled(x), e, n0));
    var tileUp := W13Tile(x, e, n0 + x.ispp, start);
    AccumulateTile(up, tileA, tileUp, start, input, W13Mat(AsTiled(x), e, n0 + x.ispp));
  }

  /** The tile sums are the expert's projections of the row's token. */
  lemma GateUpIs(x: Experts, r: Routing, a: Mat, e: int, tb: int, m: int, n0: int, n: int)
    requires r.Filled(tb + m)
    ensures Dot(0, x.hidden, Row(InputMat(r, a, tb), m), Row(W13Mat(x, e, n0), n))
      == x.GateUp(e, Row(a, r.Token(tb + m)), n0 + n)
  {
    var f, g := Row(InputMat(r, a, tb), m), Row(W13Mat(x, e, n0), n);
    var v, w := Row(a, r.Token(tb + m)), x.W13Row(e, n0 + n);
    forall c: int ensures f(c) == v(c) && g(c) == w(c) {
      assert InputMat(r, a, tb)(m, c) == r.InputAt(a, tb + m, c);
      assert W13Mat(x, e, n0)(n, c) == x.W13At(e, n0 + n, c);
    }
    DotCongr(0, x.hidden, f, g, v, w);
  }

  /** What stage 0 leaves in the activation buffer. */
  function ActAt(x: Experts, r: Routing, a: Mat, p: int, n: int): real
    requires r.Filled(p)
  {
    x.ActVec(r.Owner(p), Row(a, r.Token(p)))(n)
  }

  /** One real row of the epilogue: 64 columns. */
  method ActRow(x: Experts, ghost target: Vec, e: nat, p: nat, n0: nat, m: nat,
                gate: array2<real>, up: array2<real>, act: array2<real>)
    requires p < act.Length0 && n0 + TILE <= act.Length1 && gate != act && up != act
    requires m < gate.Length0 == up.Length0 && gate.Length1 == up.Length1 == TILE
    requires forall n :: 0 <= n < TILE ==> x.Activated(e, gate[m, n], up[m, n], n0 + n) == target(n0 + n)
    modifies act
    ensures forall q, n :: 0 <= q < act.Length0 && 0 <= n < act.Length1 ==>
      act[q, n] == if q == p && n0 <= n < n0 + TILE then target(n) else old(act[q, n])
  {
    for n := 0 to TILE
      invariant forall q, j :: 0 <= q < act.Length0 && 0 <= j < act.Length1 ==>
        act[q, j] == if q == p && n0 <= j < n0 + n then target(j) else old(act[q, j])
      invariant forall i, j :: 0 <= i < gate.Length0 && 0 <= j < TILE ==>
        gate[i, j] == old(gate[i, j]) && up[i, j] == old(up[i, j])
    {
      act[p, n0 + n] := x.Activated(e, gate[m, n], up[m, n], n0 + n);
    }
  }

  /** The activation epilogue of one block: 64 columns of its real rows. */
  method ActBlock(x: Experts, r: Routing, ghost a: Mat, e: nat, tb: nat, n0: nat,
                  gate: array2<real>, up: array2<real>, act: array2<real>)
    requires tb + BLOCK_M <= |r.rows| == act.Length0 && n0 + TILE <= x.ispp == act.Length1 && gate != act && up != act
    requires gate.Length0 == up.Length0 == BLOCK_M && gate.Length1 == up.Length1 == TILE
    requires forall p :: tb <= p < tb + BLOCK_M ==> r.Owner(p) == e
    requires forall m, n :: 0 <= m < BLOCK_M && 0 <= n < TILE ==>
      gate[m, n] == Dot(0, x.hidden, Row(InputMat(r, a, tb), m), Row(W13Mat(AsTiled(x), e, n0), n))
    requires forall m, n :: 0 <= m < BLOCK_M && 0 <= n < TILE ==>
      up[m, n] == Dot(0, x.hidden, Row(InputMat(r, a, tb), m), Row(W13Mat(AsTiled(x), e, n0 + x.ispp), n))
    modifies act
    ensures forall p, n :: 0 <= p < act.Length0 && 0 <= n < act.Length1 ==>
      act[p, n] == if tb <= p < tb + BLOCK_M && r.Filled(p) && n0 <= n < n0 + TILE then ActAt(AsTiled(x), r, a, p, n)
                   else old(act[p, n])
  {
    hide AsTiled, Dot, InputMat, W13Mat, Row, ActAt;
    for m := 0 to BLOCK_M
      invariant forall p, n :: 0 <= p < act.Length0 && 0 <= n < act.Length1 ==>
        act[p, n] == if tb <= p < tb + m && r.Filled(p) && n0 <= n < n0 + TILE then ActAt(AsTiled(x), r, a, p, n)
                     else old(act[p, n])
      invariant forall i, n :: 0 <= i < BLOCK_M && 0 <= n < TILE ==>
        gate[i, n] == old(gate[i, n]) && up[i, n] == old(up[i, n])
    {
      if r.rows[tb + m] < r.n {
        ghost var target := ActTarget(AsTiled(x), r, a, tb + m);
        forall n | 0 <= n < TILE ensures x.Activated(e, gate[m, n], up[m, n], n0 + n) == target(n0 + n) {
          EpilogueIs(AsTiled(x), r, a, e, tb, m, n0, n);
        }
        ActRow(x, target, e, tb + m, n0, m, gate, up, act);
      }
    }
  }

  function ActTarget(x: Experts, r: Routing, a: Mat, p: int): Vec
    requires r.Filled(p)
  {
    n => ActAt(x, r, a, p, n)
  }

  lemma EpilogueIs(x: Experts, r: Routing, a: Mat, e: int, tb: int, m: int, n0: int, n: int)
    requires r.Filled(tb + m) && r.Owner(tb + m) == e
    ensures x.Activated(e, Dot(0, x.hidden, Row(InputMat(r, a, tb), m), Row(W13Mat(x, e, n0), n)),
                        Dot(0, x.hidden, Row(InputMat(r, a, tb), m), Row(W13Mat(x, e, n0 + x.ispp), n)), n0 + n)
      == ActAt(x, r, a, tb + m, n0 + n)
  {
    hide Dot, Row, InputMat, W13Mat, Experts.GateUp, Experts.Activated, Experts.ActVec;
    GateUpIs(x, r, a, e, tb, m, n0, n);
    GateUpIs(x, r, a, e, tb, m, n0 + x.ispp, n);
    assert n0 + x.ispp + n == n0 + n + x.ispp;
    ActVecAt(x, e, Row(a, r.Token(tb + m)), n0 + n);
  }

  lemma BlockOwner(r: Routing, mb: nat, p: nat)
    requires mb < |r.owners| && mb * BLOCK_M <= p < mb * BLOCK_M + BLOCK_M
    ensures r.Owner(p) == r.owners[mb]
  {
    DivUnique(p, BLOCK_M, mb);
  }

  /** All columns of one block. */
  method ActWholeBlock(x: Experts, r: Routing, a: Mat, e: nat, tb: nat, act: array2<real>)
    requires WholeTiles(x) && e < x.count && tb + BLOCK_M <= |r.rows| == act.Length0 && act.Length1 == x.ispp
    requires forall p :: tb <= p < tb + BLOCK_M ==> r.Owner(p) == e
    modifies act
    ensures forall p, n :: 0 <= p < act.Length0 && 0 <= n < act.Length1 ==>
      act[p, n] == if tb <= p < tb + BLOCK_M && r.Filled(p) then ActAt(AsTiled(x), r, a, p, n) else old(act[p, n])
  {
    hide AsTiled, Dot, InputMat, W13Mat, Row, ActAt;
    for nb := 0 to x.ispp / TILE
      invariant forall p, n :: 0 <= p < act.Length0 && 0 <= n < act.Length1 ==>
        act[p, n] == if tb <= p < tb + BLOCK_M && r.Filled(p) && n < nb * TILE then ActAt(AsTiled(x), r, a, p, n)
                     else old(act[p, n])
    {
      var gate, up := GateUpBlock(x, r, a, e, tb, nb * TILE);
      ActBlock(x, r, a, e, tb, nb * TILE, gate, up, act);
    }
  }

  /** Stage 0: every real row of the activation buffer, and nothing else. */
  method Stage0(x: Experts, r: Routing, m: nat, a: Mat, act: array2<real>)
    requires WholeTiles(x) && r.Good(x.count, m) && act.Length0 == |r.rows| && act.Length1 == x.ispp
    modifies act
    ensures forall p, n :: 0 <= p < act.Length0 && 0 <= n < act.Length1 ==>
      act[p, n] == if r.Real(p) then ActAt(AsTiled(x), r, a, p, n) else old(act[p, n])
  {
    hide AsTiled, ActAt, WholeTiles;
    for mb := 0 to |r.owners|
      invariant forall p, n :: 0 <= p < act.Length0 && 0 <= n < act.Length1 ==>
        act[p, n] == if p < mb * BLOCK_M && r.Real(p) then ActAt(AsTiled(x), r, a, p, n) else old(act[p, n])
    {
      var expert, tb := r.owners[mb], mb * BLOCK_M;
      forall p: nat | tb <= p < tb + BLOCK_M ensures r.Owner(p) == expert {
        BlockOwner(r, mb, p);
      }
      if expert >= 0 {
        ActWholeBlock(x, r, a, expert, tb, act);
      }
    }
  }

  // ---- Stage 1: down projection and routed combine ------------------------------------

  /** The rows stage 1 multiplies: the activations of real rows, zeros for padding. */
  function ActMat(x: Experts, r: Routing, a: Mat, tb: int): Mat {
    (m: int, c: int) => if r.Filled(tb + m) then ActAt(x, r, a, tb + m, c) else 0.0
  }

  ghost predicate ActReady(x: Experts, r: Routing, a: Mat, tb: nat, act: array2<real>)
    reads act
  {
    && act.Length0 == |r.rows| && act.Length1 == x.ispp
    && forall p, n :: tb <= p < tb + BLOCK_M && 0 <= p < act.Length0 && 0 <= n < act.Length1 && r.Filled(p) ==>
      act[p, n] == ActAt(x, r, a, p, n)
  }

  method DownStep(x: Experts, r: Routing, ghost a: Mat, e: nat, tb: nat, n0: nat, start: nat,
                  act: array2<real>, acc: array2<real>)
    requires WholeTiles(x) && e < x.count && n0 + TILE <= x.hidden && tb + BLOCK_M <= |r.rows|
    requires start % TILE == 0 && start + TILE <= x.ispp && acc != act && ActReady(AsTiled(x), r, a, tb, act)
    requires acc.Length0 == BLOCK_M && acc.Length1 == TILE
    requires forall m, n :: 0 <= m < BLOCK_M && 0 <= n < TILE ==>
      acc[m, n] == Dot(0, start, Row(ActMat(AsTiled(x), r, a, tb), m), Row(W2Mat(AsTiled(x), e, n0), n))
    modifies acc
    ensures forall m, n :: 0 <= m < BLOCK_M && 0 <= n < TILE ==>
      acc[m, n] == Dot(0, start + TILE, Row(ActMat(AsTiled(x), r, a, tb), m), Row(W2Mat(AsTiled(x), e, n0), n))
  {
    hide AsTiled, Dot, W2Mat, Row, ActAt;
    ghost var input := ActMat(AsTiled(x), r, a, tb);
    var tileA := LoadAct(r, act, tb, start);
    assert forall m, k :: 0 <= m < BLOCK_M && 0 <= k < TILE ==> tileA[m, k] == input(m, start + k);
    hide ActMat, ActReady;
    var tile := W2Tile(x, e, n0, start);
    AccumulateTile(acc, tileA, tile, start, input, W2Mat(AsTiled(x), e, n0));
  }

  method DownBlock(x: Experts, r: Routing, ghost a: Mat, e: nat, tb: nat, n0: nat, act: array2<real>)
      returns (acc: array2<real>)
    requires WholeTiles(x) && e < x.count && n0 + TILE <= x.hidden && tb + BLOCK_M <= |r.rows|
    requires ActReady(AsTiled(x), r, a, tb, act)
    ensures fresh(acc) && acc.Length0 == BLOCK_M && acc.Length1 == TILE
    ensures forall m, n :: 0 <= m < BLOCK_M && 0 <= n < TILE ==>
      acc[m, n] == Dot(0, x.ispp, Row(ActMat(AsTiled(x), r, a, tb), m), Row(W2Mat(AsTiled(x), e, n0), n))
  {
    hide AsTiled, ActMat, W2Mat, Row, ActReady, Dot;
    NothingAccumulated(ActMat(AsTiled(x), r, a, tb), W2Mat(AsTiled(x), e, n0));
    acc := new real[BLOCK_M, TILE]((_, _) => 0.0);
    for kb := 0 to x.ispp / TILE
      invariant forall m, n :: 0 <= m < BLOCK_M && 0 <= n < TILE ==>
        acc[m, n] == Dot(0, kb * TILE, Row(ActMat(AsTiled(x), r, a, tb), m), Row(W2Mat(AsTiled(x), e, n0), n))
      invariant ActReady(AsTiled(x), r, a, tb, act)
    {
      DownStep(x, r, a, e, tb, n0, kb * TILE, act, acc);
    }
  }

  lemma DownIs(x: Experts, r: Routing, a: Mat, e: int, tb: nat, m: nat, n0: int, n: int)
    requires r.Filled(tb + m) && r.Owner(tb + m) == e
    ensures Dot(0, x.ispp, Row(ActMat(x, r, a, tb), m), Row(W2Mat(x, e, n0), n))
      == x.Down(e, x.ActVec(e, Row(a, r.Token(tb + m))), n0 + n)
  {
    var f, g := Row(ActMat(x, r, a, tb), m), Row(W2Mat(x, e, n0), n);
    var v, w := x.ActVec(e, Row(a, r.Token(tb + m))), x.W2Row(e, n0 + n);
    forall c: int ensures f(c) == v(c) && g(c) == w(c) {
      hide Dot, Experts.W2At;
      assert ActMat(x, r, a, tb)(m, c) == ActAt(x, r, a, tb + m, c);
      assert W2Mat(x, e, n0)(n, c) == x.W2At(e, n0 + n, c);
    }
    hide ActMat, W2Mat, Row, ActAt, Experts.W2At, Experts.ActVec, Experts.W2Row, Dot;
    DotCongr(0, x.ispp, f, g, v, w);
  }

  /** The combined value of a real row is its contribution to its own token. */
  lemma CombineTerm(x: Experts, r: Routing, count: nat, mTokens: nat, a: Mat, e: int, tb: nat, m: nat, n0: int, n: int)
    requires r.Good(count, mTokens) && r.Filled(tb + m) && r.Owner(tb + m) == e >= 0
    ensures Times(Dot(0, x.ispp, Row(ActMat(x, r, a, tb), m), Row(W2Mat(x, e, n0), n)) + x.b2(e, n0 + n),
                        r.weights[tb + m])
      == Contribution(x, r, a, r.Token(tb + m), n0 + n)(tb + m)
  {
    hide Dot, ActMat, W2Mat, Row, Times, Experts.Down, Experts.ActVec, Routing.Owner, Routing.Token;
    DownIs(x, r, a, e, tb, m, n0, n);
  }

  lemma NoContribution(x: Experts, r: Routing, a: Mat, t: int, c: int, p: int)
    requires 0 <= p < |r.rows| && (!r.Real(p) || r.Token(p) != t)
    ensures Contribution(x, r, a, t, c)(p) == 0.0
  {
  }

  /** One row's 64 additions into its token's output. */
  method CombineRow(x: Experts, ghost value: Vec, e: nat, token: nat, n0: nat, m: nat, weight: real,
                    acc: array2<real>, out: array2<real>)
    requires token < out.Length0 && n0 + TILE <= out.Length1 && acc != out
    requires m < acc.Length0 && acc.Length1 == TILE
    requires forall n :: 0 <= n < TILE ==> Times(acc[m, n] + x.b2(e, n0 + n), weight) == value(n0 + n)
    modifies out
    ensures forall t, c :: 0 <= t < out.Length0 && 0 <= c < out.Length1 ==>
      out[t, c] == old(out[t, c]) + if t == token && n0 <= c < n0 + TILE then value(c) else 0.0
  {
    for n := 0 to TILE
      invariant forall t, c :: 0 <= t < out.Length0 && 0 <= c < out.Length1 ==>
        out[t, c] == old(out[t, c]) + if t == token && n0 <= c < n0 + n then value(c) else 0.0
      invariant forall i, j :: 0 <= i < acc.Length0 && 0 <= j < acc.Length1 ==> acc[i, j] == old(acc[i, j])
    {
      out[token, n0 + n] := out[token, n0 + n] + Times(acc[m, n] + x.b2(e, n0 + n), weight);
    }
  }

  function RowValue(x: Experts, r: Routing, a: Mat, p: int): Vec
    requires 0 <= p < |r.rows|
  {
    c => Contribution(x, r, a, r.Token(p), c)(p)
  }

  /** What position p adds to out[t][c]. */
  function Gain(x: Experts, r: Routing, a: Mat, p: int, t: int, c: int): real { Contribution(x, r, a, t, c)(p) }

  /** Sum of what positions [tb, p) add to out[t][c]. */
  function Added(x: Experts, r: Routing, a: Mat, tb: int, p: int, t: int, c: int): real {
    Sum(tb, p, Contribution(x, r, a, t, c))
  }

  lemma AddedStep(x: Experts, r: Routing, a: Mat, tb: int, p: int, t: int, c: int)
    requires tb <= p < |r.rows| && 0 <= p
    ensures Added(x, r, a, tb, p + 1, t, c) == Added(x, r, a, tb, p, t, c) + Gain(x, r, a, p, t, c)
    ensures Added(x, r, a, tb, tb, t, c) == 0.0
  {
    hide Contribution;
  }

  lemma GainIs(x: Experts, r: Routing, a: Mat, t: int, c: int, p: int)
    requires 0 <= p < |r.rows|
    ensures Gain(x, r, a, p, t, c) == if r.Filled(p) && r.Token(p) == t then RowValue(x, r, a, p)(c) else 0.0
  {
    if !r.Filled(p) || r.Token(p) != t { NoContribution(x, r, a, t, c, p); }
    hide Contribution;
  }

  /** The combine of one block, 64 columns. */
  method CombineBlock(x: Experts, r: Routing, ghost a: Mat, e: nat, m: nat, tb: nat, n0: nat,
                      acc: array2<real>, out: array2<real>)
    requires r.Good(x.count, m) && tb + BLOCK_M <= |r.rows| && acc != out
    requires acc.Length0 == BLOCK_M && acc.Length1 == TILE && out.Length0 == m && out.Length1 == x.hidden
    requires n0 + TILE <= x.hidden && forall p :: tb <= p < tb + BLOCK_M ==> r.Owner(p) == e
    requires forall i, n :: 0 <= i < BLOCK_M && 0 <= n < TILE ==>
      acc[i, n] == Dot(0, x.ispp, Row(ActMat(AsTiled(x), r, a, tb), i), Row(W2Mat(AsTiled(x), e, n0), n))
    modifies out
    ensures forall t, c :: 0 <= t < m && 0 <= c < x.hidden ==>
      out[t, c] == old(out[t, c]) + if n0 <= c < n0 + TILE then Added(AsTiled(x), r, a, tb, tb + BLOCK_M, t, c) else 0.0
  {
    hide AsTiled, Dot, ActMat, W2Mat, Row, Added, Contribution, RowValue, Gain;
    forall t, c | 0 <= t < m && 0 <= c < x.hidden ensures Added(AsTiled(x), r, a, tb, tb, t, c) == 0.0 {
      AddedStep(AsTiled(x), r, a, tb, tb, t, c);
    }
    for i := 0 to BLOCK_M
      invariant forall t, c :: 0 <= t < m && 0 <= c < x.hidden ==>
        out[t, c] == old(out[t, c]) + if n0 <= c < n0 + TILE then Added(AsTiled(x), r, a, tb, tb + i, t, c) else 0.0
      invariant forall j, n :: 0 <= j < BLOCK_M && 0 <= n < TILE ==> acc[j, n] == old(acc[j, n])
    {
      CombinePosition(x, r, a, e, m, tb, n0, i, acc, out);
      ghost var p, next := tb + i, tb + i + 1;
      forall t, c | 0 <= t < m && 0 <= c < x.hidden
        ensures Added(AsTiled(x), r, a, tb, next, t, c) == Added(AsTiled(x), r, a, tb, p, t, c) + Gain(AsTiled(x), r, a, p, t, c)
      {
        AddedStep(AsTiled(x), r, a, tb, p, t, c);
      }
    }
  }

  /** One position of the block. */
  method CombinePosition(x: Experts, r: Routing, ghost a: Mat, e: nat, m: nat, tb: nat, n0: nat, i: nat,
                         acc: array2<real>, out: array2<real>)
    requires r.Good(x.count, m) && tb + BLOCK_M <= |r.rows| && acc != out && i < BLOCK_M && r.Owner(tb + i) == e
    requires acc.Length0 == BLOCK_M && acc.Length1 == TILE && out.Length0 == m && out.Length1 == x.hidden
    requires n0 + TILE <= x.hidden
    requires forall n :: 0 <= n < TILE ==>
      acc[i, n] == Dot(0, x.ispp, Row(ActMat(AsTiled(x), r, a, tb), i), Row(W2Mat(AsTiled(x), e, n0), n))
    modifies out
    ensures forall t, c :: 0 <= t < m && 0 <= c < x.hidden ==>
      out[t, c] == old(out[t, c]) + if n0 <= c < n0 + TILE then Gain(AsTiled(x), r, a, tb + i, t, c) else 0.0
  {
    hide AsTiled, Dot, ActMat, W2Mat, Row, Gain, Contribution, RowValue;
    ghost var p := tb + i;
    forall t, c | 0 <= t < m && 0 <= c < x.hidden
      ensures Gain(AsTiled(x), r, a, p, t, c) == if r.Filled(p) && r.Token(p) == t then RowValue(AsTiled(x), r, a, p)(c) else 0.0
    {
      GainIs(AsTiled(x), r, a, t, c, p);
    }
    if r.rows[tb + i] < r.n {
      TokenInRange(r, x.count, m, p);
      forall n | 0 <= n < TILE
        ensures Times(acc[i, n] + x.b2(e, n0 + n), r.weights[p]) == RowValue(AsTiled(x), r, a, p)(n0 + n)
      {
        CombineTerm(AsTiled(x), r, x.count, m, a, e, tb, i, n0, n);
        RowValueAt(AsTiled(x), r, a, p, n0 + n);
      }
      CombineRow(x, RowValue(AsTiled(x), r, a, p), e, r.Token(tb + i), n0, i, r.weights[tb + i], acc, out);
    }
  }

  lemma RowValueAt(x: Experts, r: Routing, a: Mat, p: int, c: int)
    requires 0 <= p < |r.rows|
    ensures RowValue(x, r, a, p)(c) == Contribution(x, r, a, r.Token(p), c)(p)
  {
    hide Contribution;
  }

  /** All columns of one block's rows. */
  method DownWholeBlock(x: Experts, r: Routing, ghost a: Mat, e: nat, m: nat, tb: nat,
                        act: array2<real>, out: array2<real>)
    requires WholeTiles(x) && r.Good(x.count, m) && e < x.count && tb + BLOCK_M <= |r.rows| && act != out
    requires ActReady(AsTiled(x), r, a, tb, act) && out.Length0 == m && out.Length1 == x.hidden
    requires forall p :: tb <= p < tb + BLOCK_M ==> r.Owner(p) == e
    modifies out
    ensures forall t, c :: 0 <= t < m && 0 <= c < x.hidden ==>
      out[t, c] == old(out[t, c]) + Added(AsTiled(x), r, a, tb, tb + BLOCK_M, t, c)
  {
    hide AsTiled, Dot, ActMat, W2Mat, Row, Added, ActReady;
    for nb := 0 to x.hidden / TILE
      invariant forall t, c :: 0 <= t < m && 0 <= c < x.hidden ==>
        out[t, c] == old(out[t, c]) + if c < nb * TILE then Added(AsTiled(x), r, a, tb, tb + BLOCK_M, t, c) else 0.0
      invariant ActReady(AsTiled(x), r, a, tb, act)
    {
      var acc := DownBlock(x, r, a, e, tb, nb * TILE, act);
      CombineBlock(x, r, a, e, m, tb, nb * TILE, acc, out);
    }
  }

  lemma AddedBlock(x: Experts, r: Routing, a: Mat, tb: nat, t: int, c: int)
    requires tb + BLOCK_M <= |r.rows|
    ensures Added(x, r, a, 0, tb + BLOCK_M, t, c) == Added(x, r, a, 0, tb, t, c) + Added(x, r, a, tb, tb + BLOCK_M, t, c)
    ensures (forall p :: tb <= p < tb + BLOCK_M ==> r.Owner(p) < 0) ==> Added(x, r, a, tb, tb + BLOCK_M, t, c) == 0.0
  {
    SumSplit(0, tb, tb + BLOCK_M, Contribution(x, r, a, t, c));
    if forall p :: tb <= p < tb + BLOCK_M ==> r.Owner(p) < 0 {
      forall p | tb <= p < tb + BLOCK_M ensures Contribution(x, r, a, t, c)(p) == 0.0 {
        NoContribution(x, r, a, t, c, p);
      }
      SumZero(tb, tb + BLOCK_M, Contribution(x, r, a, t, c));
    }
  }

  /** Stage 1: every token's output gains its real rows' weighted expert outputs. */
  method Stage1(x: Experts, r: Routing, m: nat, ghost a: Mat, act: array2<real>, out: array2<real>)
    requires WholeTiles(x) && r.Good(x.count, m) && act != out
    requires act.Length0 == |r.rows| && act.Length1 == x.ispp && out.Length0 == m && out.Length1 == x.hidden
    requires forall p, n :: 0 <= p < act.Length0 && 0 <= n < act.Length1 && r.Real(p) ==> act[p, n] == ActAt(AsTiled(x), r, a, p, n)
    modifies out
    ensures forall t, c :: 0 <= t < m && 0 <= c < x.hidden ==> out[t, c] == old(out[t, c]) + Combined(AsTiled(x), r, a, t, c)
  {
    hide AsTiled, ActAt, WholeTiles, Added, Contribution;
    assert forall t, c :: 0 <= t < m && 0 <= c < x.hidden ==> Added(AsTiled(x), r, a, 0, 0, t, c) == 0.0 by { AddedNone(AsTiled(x), r, a); }
    for mb := 0 to |r.owners|
      invariant forall t, c :: 0 <= t < m && 0 <= c < x.hidden ==>
        out[t, c] == old(out[t, c]) + Added(AsTiled(x), r, a, 0, mb * BLOCK_M, t, c)
      invariant forall p, n :: 0 <= p < act.Length0 && 0 <= n < act.Length1 && r.Real(p) ==>
        act[p, n] == ActAt(AsTiled(x), r, a, p, n)
    {
      var expert, tb := r.owners[mb], mb * BLOCK_M;
      forall p: nat | tb <= p < tb + BLOCK_M ensures r.Owner(p) == expert {
        BlockOwner(r, mb, p);
      }
      forall t, c | 0 <= t < m && 0 <= c < x.hidden
        ensures Added(AsTiled(x), r, a, 0, tb + BLOCK_M, t, c)
          == Added(AsTiled(x), r, a, 0, tb, t, c) + Added(AsTiled(x), r, a, tb, tb + BLOCK_M, t, c)
        ensures expert < 0 ==> Added(AsTiled(x), r, a, tb, tb + BLOCK_M, t, c) == 0.0
      {
        AddedBlock(AsTiled(x), r, a, tb, t, c);
      }
      if expert >= 0 {
        DownWholeBlock(x, r, a, expert, m, tb, act, out);
      }
    }
    forall t, c | 0 <= t < m && 0 <= c < x.hidden
      ensures Added(AsTiled(x), r, a, 0, |r.rows|, t, c) == Combined(AsTiled(x), r, a, t, c)
    {
      AddedAll(AsTiled(x), r, a, t, c);
    }
  }

  lemma AddedNone(x: Experts, r: Routing, a: Mat)
    ensures forall t, c :: Added(x, r, a, 0, 0, t, c) == 0.0
  {
  }

  lemma AddedAll(x: Experts, r: Routing, a: Mat, t: int, c: int)
    ensures Added(x, r, a, 0, |r.rows|, t, c) == Combined(x, r, a, t, c)
  {
  }

  /** fused_moe_mxfp4: out gains, for every token, the sum over the layout's real
      rows of that token. */
  method FusedMoe(x: Experts, r: Routing, m: nat, a: Mat, act: array2<real>, out: array2<real>)
    requires WholeTiles(x) && r.Good(x.count, m) && act != out
    requires act.Length0 == |r.rows| && act.Length1 == x.ispp && out.Length0 == m && out.Length1 == x.hidden
    modifies act, out
    ensures forall t, c :: 0 <= t < m && 0 <= c < x.hidden ==> out[t, c] == old(out[t, c]) + Combined(AsTiled(x), r, a, t, c)
    ensures GroupFits(x.w13.group) ==>
      forall t, c :: 0 <= t < m && 0 <= c < x.hidden ==> out[t, c] == old(out[t, c]) + Combined(ReadBy(x, Kernel), r, a, t, c)
  {
    hide AsTiled, ActAt, Combined, GroupFits;
    Stage0(x, r, m, a, act);
    Stage1(x, r, m, a, act, out);
    if GroupFits(x.w13.group) {
      forall t, c | 0 <= t < m && 0 <= c < x.hidden ensures Combined(AsTiled(x), r, a, t, c) == Combined(ReadBy(x, Kernel), r, a, t, c) {
        FittingCombined(x, r, m, a, t, c);
      }
    }
  }

  ghost predicate RoutedOutput(x: Experts, ids: seq<int>, w: Vec, topK: nat, m: nat, a: Mat, out: array2<real>)
    reads out
  {
    && out.Length0 == m && out.Length1 == x.hidden
    && forall t, c :: 0 <= t < m && 0 <= c < x.hidden ==> out[t, c] == MoeOut(x, ids, w, topK, a, t, c)
  }

  lemma RoutedFromCombined(x: Experts, ids: seq<int>, w: Vec, topK: nat, m: nat, a: Mat, out: array2<real>)
    requires |ids| == RowStart(m, topK) && out.Length0 == m && out.Length1 == x.hidden
    requires forall t, c :: 0 <= t < m && 0 <= c < x.hidden ==>
      out[t, c] == 0.0 + Combined(x, Aligned(ids, x.count, w, topK), a, t, c)
    ensures RoutedOutput(x, ids, w, topK, m, a, out)
  {
    hide Combined, MoeOut, Aligned;
    forall t, c | 0 <= t < m && 0 <= c < x.hidden ensures out[t, c] == MoeOut(x, ids, w, topK, a, t, c) {
      AlignedMeansRouted(x, ids, w, topK, m, a, t, c);
    }
  }

  /** The aligned layout with the routing weights sorted to match; padding gets 0. */
  method SortedLayout(ids: seq<int>, count: nat, w: Vec, topK: nat, m: nat) returns (r: Routing)
    requires |ids| == RowStart(m, topK)
    ensures r == Aligned(ids, count, w, topK) && r.Good(count, m)
  {
    var layout := Align(ids, m, topK, BLOCK_M, count);
    var rows := layout.value.0;
    var weights := seq(|rows|, p requires 0 <= p < |rows| => if 0 <= rows[p] < |ids| then w(rows[p]) else 0.0);
    r := Routing(rows, layout.value.1, weights, topK, |ids|);
    AlignedGood(ids, count, w, topK, m);
  }

  /** moe_align_block_size, then fused_moe_mxfp4 on zeroed output, weights sorted to
      match: the routed sum, per token. */
  method AlignAndFuse(x: Experts, ids: seq<int>, w: Vec, topK: nat, m: nat, a: Mat) returns (out: array2<real>)
    requires WholeTiles(x) && |ids| == RowStart(m, topK)
    ensures fresh(out) && RoutedOutput(AsTiled(x), ids, w, topK, m, a, out)
    ensures GroupFits(x.w13.group) ==> RoutedOutput(ReadBy(x, Kernel), ids, w, topK, m, a, out)
    ensures GroupFits(x.w13.group) && NoMark(x) ==> RoutedOutput(ReadBy(x, Stages), ids, w, topK, m, a, out)
  {
    hide AsTiled, ReadBy, NoMark, Combined, RoutedOutput, GroupFits;
    var r := SortedLayout(ids, x.count, w, topK, m);
    var act := new real[|r.rows|, x.ispp];
    out := new real[m, x.hidden]((_, _) => 0.0);
    FusedMoe(x, r, m, a, act, out);
    RoutedFromCombined(AsTiled(x), ids, w, topK, m, a, out);
    if GroupFits(x.w13.group) {
      FittingOutput(x, Kernel, ids, w, topK, m, a, out);
      if NoMark(x) { FittingOutput(x, Stages, ids, w, topK, m, a, out); }
    }
  }

  lemma FittingOutput(x: Experts, reader: Reader, ids: seq<int>, w: Vec, topK: nat, m: nat, a: Mat, out: array2<real>)
    requires x.Good() && GroupFits(x.w13.group) && (reader.Kernel? || NoMark(x))
    requires RoutedOutput(AsTiled(x), ids, w, topK, m, a, out)
    ensures RoutedOutput(ReadBy(x, reader), ids, w, topK, m, a, out)
  {
    hide AsTiled, ReadBy, NoMark, MoeOut, GroupFits;
    forall t, c | 0 <= t < m && 0 <= c < x.hidden ensures out[t, c] == MoeOut(ReadBy(x, reader), ids, w, topK, a, t, c) {
      FittingRouted(x, reader, ids, w, topK, a, t, c);
    }
  }
}
