/** Packed four-bit weights with one scale per group of columns: dequantising a
    whole matrix, a tile of it, and a column shard of it. */
module MoeWeights {
  import opened Formats
  import opened IntArith
  import opened RealArith

  /** Which code reads the scale bytes: the fused kernel, or the distributed stages. */
  datatype Reader = Kernel | Stages

  /** The number formats and the activation, as the code applies them: a nibble's
      value, who reads the scale bytes, rounding to bf16, and the gated activation. */
  datatype Numerics = Numerics(fp4: int -> real, reader: Reader, bf16: real -> real, act: (real, real) -> real)
  {
    function Scale(s: int): real {
      match reader
      case Kernel => Ue8m0(s)
      case Stages => StageUe8m0(s)
    }
  }

  function RowStart(row: int, stride: int): int { row * stride }

  lemma RowFits(row: nat, rows: nat, stride: nat, c: nat)
    requires row < rows && c < stride
    ensures 0 <= RowStart(row, stride) + c < RowStart(rows, stride)
  {
    BlockFits(row, rows, stride);
    MulMono(0, row, stride);
  }

  /** The low nibble is the even column. */
  function Nibble(byte: int, c: int): int {
    if c % 2 == 0 then byte % 16 else byte / 16 % 16
  }

  /** One weight, rounded once. */
  function Value(num: Numerics, byte: int, c: int, scale: int): real {
    num.bf16(Times(num.fp4(Nibble(byte, c)), num.Scale(scale)))
  }

  /** A row-major matrix of rows x k nibbles, two to a byte. */
  datatype Packed = Packed(bytes: seq<int>, scales: seq<int>, rows: nat, k: nat, group: nat)
  {
    ghost predicate Good() {
      && k % 2 == 0 && group > 0 && k % group == 0
      && |bytes| == RowStart(rows, k / 2) && |scales| == RowStart(rows, k / group)
    }

    function ByteAt(row: int, c: int): int {
      var i := RowStart(row, k / 2) + c / 2;
      if 0 <= i < |bytes| then bytes[i] else 0
    }

    function ScaleAt(row: int, g: int): int {
      var i := if group == 0 then 0 else RowStart(row, k / group) + g;
      if 0 <= i < |scales| then scales[i] else 0
    }

    /** _dequant_full: every column with the scale of its own group. */
    function At(num: Numerics, row: int, c: int): real {
      if group == 0 then 0.0
      else Value(num, ByteAt(row, c), c, ScaleAt(row, c / group))
    }
  }

  // ---- Column shards -----------------------------------------------------------------

  function Narrow(data: seq<int>, rows: nat, stride: int, width: int, from: int): (r: seq<int>)
    ensures |r| == if RowStart(rows, width) >= 0 then RowStart(rows, width) else 0
  {
    seq(if RowStart(rows, width) >= 0 then RowStart(rows, width) else 0,
        i requires 0 <= i => if width == 0 then 0 else
          var j := RowStart(i / width, stride) + from + i % width;
          if 0 <= j < |data| then data[j] else 0)
  }

  lemma NarrowAt(data: seq<int>, rows: nat, stride: nat, width: nat, from: nat, row: nat, c: nat)
    requires row < rows && c < width && from + width <= stride && |data| == RowStart(rows, stride)
    ensures 0 <= RowStart(row, width) + c < |Narrow(data, rows, stride, width, from)|
    ensures 0 <= RowStart(row, stride) + from + c < |data|
    ensures Narrow(data, rows, stride, width, from)[RowStart(row, width) + c] == data[RowStart(row, stride) + from + c]
  {
    RowFits(row, rows, width, c);
    RowFits(row, rows, stride, from + c);
    DivUnique(RowStart(row, width) + c, width, row);
    hide RowStart;
  }

  function Share(k: nat, tp: nat): nat
    requires tp > 0
  {
    DivMod(k, tp);
    if k / tp < 0 then (MulMono(k / tp, -1, tp); 0) else k / tp
  }

  /** Rank r's columns of a matrix split over tp ranks: the same layout with the
      last axis narrowed. */
  function Shard(w: Packed, tp: nat, r: nat): Packed
    requires tp > 0 && w.group > 0
  {
    var k := Share(w.k, tp);
    Packed(Narrow(w.bytes, w.rows, w.k / 2, k / 2, r * k / 2),
           Narrow(w.scales, w.rows, w.k / w.group, k / w.group, r * k / w.group), w.rows, k, w.group)
  }

  /** A split the packing allows: whole bytes and whole groups in every shard. */
  predicate Splits(k: nat, group: nat, tp: nat) {
    tp > 0 && group > 0 && k % tp == 0 && k / tp % 2 == 0 && k / tp % group == 0
  }

  lemma ShareOf(k: nat, tp: nat, r: nat, d: nat)
    requires tp > 0 && d > 0 && r < tp && k % tp == 0 && k / tp % d == 0
    ensures var w := k / tp;
      && r * w / d == r * (w / d) && r * w % d == 0
      && k / d == tp * (w / d) && k % d == 0
      && r * (w / d) + w / d <= k / d
      && 0 <= r * w && r * w + w <= k
  {
    var w := k / tp;
    var q := w / d;
    DivMod(k, tp);
    DivMod(w, d);
    MulRotates(r, q, d);
    MulRotates(tp, q, d);
    DivUnique(r * w, d, r * q);
    DivUnique(k, d, tp * q);
    BlockFits(r, tp, q);
    BlockFits(r, tp, w);
    MulMono(0, r, w);
    MulMono(0, r, q);
  }

  lemma ColumnParts(k: nat, tp: nat, r: nat, d: nat, c: nat)
    requires tp > 0 && d > 0 && r < tp && k % tp == 0 && k / tp % d == 0 && c < k / tp
    ensures var w := k / tp;
      (r * w + c) / d == r * (w / d) + c / d && (r * w + c) % d == c % d && 0 <= c / d < w / d
  {
    var w := k / tp;
    ShareOf(k, tp, r, d);
    DivMod(c, d);
    DivMod(w, d);
    DivMod(r * w, d);
    var q := r * (w / d);
    MulSum(q, c / d, d);
    DivUnique(r * w + c, d, q + c / d);
    if c / d >= w / d { MulMono(w / d, c / d, d); }
    if c / d < 0 { MulMono(c / d, -1, d); }
  }

  lemma ShardByte(w: Packed, tp: nat, r: nat, row: nat, c: nat)
    requires w.Good() && Splits(w.k, w.group, tp) && r < tp && row < w.rows && c < w.k / tp
    ensures Shard(w, tp, r).ByteAt(row, c) == w.ByteAt(row, r * (w.k / tp) + c)
    ensures (r * (w.k / tp) + c) % 2 == c % 2
  {
    var k := w.k / tp;
    ShareOf(w.k, tp, r, 2);
    ColumnParts(w.k, tp, r, 2, c);
    NarrowAt(w.bytes, w.rows, w.k / 2, k / 2, r * (k / 2), row, c / 2);
    hide RowStart, Narrow;
    assert Shard(w, tp, r).bytes == Narrow(w.bytes, w.rows, w.k / 2, k / 2, r * (k / 2));
  }

  lemma ShardScale(w: Packed, tp: nat, r: nat, row: nat, c: nat)
    requires w.Good() && Splits(w.k, w.group, tp) && r < tp && row < w.rows && c < w.k / tp
    ensures Shard(w, tp, r).ScaleAt(row, c / w.group) == w.ScaleAt(row, (r * (w.k / tp) + c) / w.group)
  {
    var k, g := w.k / tp, w.group;
    ShareOf(w.k, tp, r, g);
    ColumnParts(w.k, tp, r, g, c);
    NarrowAt(w.scales, w.rows, w.k / g, k / g, r * (k / g), row, c / g);
    hide RowStart, Narrow;
    assert Shard(w, tp, r).scales == Narrow(w.scales, w.rows, w.k / g, k / g, r * (k / g));
  }

  /** Dequantising a rank's shard gives exactly its columns of the whole matrix. */
  lemma ShardIsColumns(num: Numerics, w: Packed, tp: nat, r: nat, row: nat, c: nat)
    requires w.Good() && Splits(w.k, w.group, tp) && r < tp && row < w.rows && c < w.k / tp
    ensures Shard(w, tp, r).At(num, row, c) == w.At(num, row, r * (w.k / tp) + c)
  {
    ShardByte(w, tp, r, row, c);
    ShardScale(w, tp, r, row, c);
    SameValue(num, w.ByteAt(row, r * (w.k / tp) + c), c, r * (w.k / tp) + c, Shard(w, tp, r).ScaleAt(row, c / w.group));
    assert Shard(w, tp, r).group == w.group;
    hide RowStart, Narrow, Shard, Splits, Nibble, Value;
  }

  lemma SameValue(num: Numerics, byte: int, c: int, d: int, scale: int)
    requires c % 2 == d % 2
    ensures Value(num, byte, c, scale) == Value(num, byte, d, scale)
  {
    assert Nibble(byte, c) == Nibble(byte, d);
    hide Nibble, Times;
  }

  lemma ShardGood(w: Packed, tp: nat, r: nat)
    requires w.Good() && Splits(w.k, w.group, tp) && r < tp
    ensures Shard(w, tp, r).Good() && Shard(w, tp, r).k == w.k / tp && Shard(w, tp, r).rows == w.rows
  {
    MulMono(0, w.rows, w.k / tp / 2);
    MulMono(0, w.rows, w.k / tp / w.group);
  }

  // ---- tp_plan ---------------------------------------------------------------------

  datatype Plan =
    | Plan(hiddenShard: nat, isppShard: nat, w13Bytes: nat, w13ScaleBytes: nat, w2Bytes: nat, w2ScaleBytes: nat)
    | BadTp
    | NotDivisible
    | NotWholeTiles
    | NotWholeGroups

  function TpPlan(hidden: nat, ispp: nat, tp: int, group: nat): Plan
    requires group > 0
  {
    if tp <= 0 then BadTp
    else if hidden % tp != 0 || ispp % tp != 0 then NotDivisible
    else
      var h, i := hidden / tp, ispp / tp;
      if h % 64 != 0 || i % 64 != 0 then NotWholeTiles
      else if h % group != 0 || i % group != 0 then NotWholeGroups
      else Plan(h, i, 2 * ispp * (h / 2), 2 * ispp * (h / group), hidden * (i / 2), hidden * (i / group))
  }

  /** A plan is accepted exactly when tp is positive and cuts both sizes into equal whole
      parts, each of whole 64-column tiles and whole groups; the error is the first of
      these to fail. */
  lemma PlanIff(hidden: nat, ispp: nat, tp: int, group: nat)
    requires group > 0
    ensures var plan, h, i := TpPlan(hidden, ispp, tp, group), if tp > 0 then hidden / tp else 0, if tp > 0 then ispp / tp else 0;
      var parts := tp > 0 && h * tp == hidden && i * tp == ispp;
      && (plan == BadTp <==> tp <= 0)
      && (plan == NotDivisible <==> tp > 0 && !parts)
      && (plan == NotWholeTiles <==> parts && !(h % 64 == 0 && i % 64 == 0))
      && (plan == NotWholeGroups <==> parts && h % 64 == 0 && i % 64 == 0 && !(h % group == 0 && i % group == 0))
      && (plan.Plan? <==> parts && h % 64 == 0 && i % 64 == 0 && h % group == 0 && i % group == 0)
  {
    if tp > 0 {
      DivMod(hidden, tp);
      DivMod(ispp, tp);
      QuotientNat(hidden, tp);
      QuotientNat(ispp, tp);
      var h, i := hidden / tp, ispp / tp;
      assert h * tp == hidden <==> hidden % tp == 0;
      assert i * tp == ispp <==> ispp % tp == 0;
    }
  }

  /** An accepted plan is one both packings can be split by, in whole tiles, and its
      byte counts are the sizes of one expert's shards. */
  lemma PlanSplits(hidden: nat, ispp: nat, tp: int, group: nat, w13: Packed, w2: Packed, experts: nat, r: nat)
    requires group > 0 && TpPlan(hidden, ispp, tp, group).Plan? && r < tp
    requires w13.Good() && w13.k == hidden && w13.group == group && w13.rows == experts * (2 * ispp)
    requires w2.Good() && w2.k == ispp && w2.group == group && w2.rows == experts * hidden
    ensures var plan := TpPlan(hidden, ispp, tp, group);
      && Splits(hidden, group, tp) && Splits(ispp, group, tp)
      && plan.hiddenShard * tp == hidden && plan.isppShard * tp == ispp
      && |Shard(w13, tp, r).bytes| == experts * plan.w13Bytes
      && |Shard(w13, tp, r).scales| == experts * plan.w13ScaleBytes
      && |Shard(w2, tp, r).bytes| == experts * plan.w2Bytes
      && |Shard(w2, tp, r).scales| == experts * plan.w2ScaleBytes
  {
    DivMod(hidden, tp);
    DivMod(ispp, tp);
    EvenTile(hidden / tp);
    EvenTile(ispp / tp);
    ShardGood(w13, tp, r);
    ShardGood(w2, tp, r);
    MulRotates(experts, 2 * ispp, hidden / tp / 2);
    MulRotates(experts, 2 * ispp, hidden / tp / group);
    MulRotates(experts, hidden, ispp / tp / 2);
    MulRotates(experts, hidden, ispp / tp / group);
  }

  lemma EvenTile(n: nat)
    requires n % 64 == 0
    ensures n % 2 == 0
  {
    DivMod(n, 64);
    DivUnique(n, 2, n / 64 * 32);
  }

  // ---- The fused kernel's tile dequant ----------------------------------------------

  /** The scale group _dequant_weight_tile uses for column c of a tile that starts
      at column start: both columns of a byte take the even one's. */
  function TileGroup(start: int, c: int, group: nat): int
    requires group > 0
  {
    start / group + c / 2 * 2 / group
  }

  function TileAt(w: Packed, num: Numerics, row: int, start: int, c: int): real
    requires w.group > 0
  {
    Value(num, w.ByteAt(row, start + c), c, w.ScaleAt(row, TileGroup(start, c, w.group)))
  }

  lemma PairGroup(start: int, c: nat, group: nat)
    requires group > 0 && start % group == 0 && group % 2 == 0
    ensures TileGroup(start, c, group) == (start + c) / group
  {
    DivMod(c, group);
    DivMod(c, 2);
    DivMod(start, group);
    var q, even := c / group, c / 2 * 2;
    DivMod(group, 2);
    MulRotates(q, group / 2, 2);
    DivUnique(even, group, q);
    MulSum(start / group, q, group);
    DivUnique(start + c, group, start / group + q);
  }

  /** The group sizes the 64-column tile can be dequantised with: more than one
      column, and whole groups in a tile or whole tiles in a group. */
  predicate GroupFits(group: nat) {
    group > 1 && (64 % group == 0 || group % 64 == 0)
  }

  lemma FittingGroup(start: nat, c: nat, group: nat)
    requires GroupFits(group) && start % 64 == 0 && c < 64
    ensures TileGroup(start, c, group) == (start + c) / group
  {
    if 64 % group == 0 {
      GroupEven(group);
      GroupStart(start, group);
      PairGroup(start, c, group);
    } else {
      TileInGroup(start, c, group);
    }
  }

  /** A tile that starts on a multiple of 64 does not cross a group of whole tiles. */
  lemma TileInGroup(start: nat, c: nat, group: nat)
    requires group > 1 && group % 64 == 0 && start % 64 == 0 && c < 64
    ensures TileGroup(start, c, group) == (start + c) / group
  {
    DivMod(start, group);
    DivMod(start, 64);
    DivMod(group, 64);
    var q, a, b := start / group, start / 64, group / 64;
    var rest := start % group;
    MulRotates(q, b, 64);
    assert rest == (a - q * b) * 64;
    NextMultiple(a - q * b, b);
    DivUnique(start + c, group, q);
    assert 0 <= c / 2 * 2 < 64;
    DivUnique(c / 2 * 2, group, 0);
  }

  lemma NextMultiple(a: int, b: int)
    requires a * 64 < b * 64
    ensures a * 64 + 64 <= b * 64
  {
  }

  /** With any other size some tile takes a wrong group for one of its columns:
      its odd columns, the first tile past a group, or the tile a group ends in. */
  lemma UnfitGroup(k: nat, group: nat) returns (start: nat, c: nat)
    requires 0 < k && k % 64 == 0 && 0 < group && k % group == 0 && !GroupFits(group)
    ensures start % 64 == 0 && start + 64 <= k && c < 64
    ensures TileGroup(start, c, group) != (start + c) / group
  {
    TileBelow(0, k);
    if group == 1 {
      start, c := 0, 1;
    } else if group < 64 {
      if k == 64 { assert false; }
      TileBelow(64, k);
      DivMod(64, group);
      start, c := 64, group - 64 % group;
      var q := 64 / group;
      MulSucc(q, group);
      DivUnique(64 + c, group, q + 1);
      assert 0 <= c / 2 * 2 < group;
      DivUnique(c / 2 * 2, group, 0);
    } else {
      DivMod(group, 64);
      start, c := group / 64 * 64, group % 64;
      DivUnique(start, 64, group / 64);
      WholeGroups(k, group);
      TileBelow(start, k);
      DivUnique(start, group, 0);
      DivUnique(c / 2 * 2, group, 0);
      DivUnique(group, group, 1);
    }
  }

  lemma TileBelow(start: nat, k: nat)
    requires start % 64 == 0 && k % 64 == 0 && start < k
    ensures start + 64 <= k
  {
    DivMod(start, 64);
    DivMod(k, 64);
    NextMultiple(start / 64, k / 64);
  }

  lemma WholeGroups(k: nat, group: nat)
    requires 0 < k && 0 < group && k % group == 0
    ensures group <= k
  {
    if k < group { DivUnique(k, group, 0); }
  }

  /** Over a row of k columns, the fused kernel's scale is every column's own in
      every tile, exactly for the fitting group sizes. */
  lemma TileGroupsRightIff(k: nat, group: nat)
    requires 0 < k && k % 64 == 0 && 0 < group && k % group == 0
    ensures (forall start: nat, c: nat :: start % 64 == 0 && start + 64 <= k && c < 64 ==>
              TileGroup(start, c, group) == (start + c) / group)
       <==> GroupFits(group)
  {
    hide TileGroup;
    if GroupFits(group) {
      forall start: nat, c: nat | start % 64 == 0 && start + 64 <= k && c < 64
        ensures TileGroup(start, c, group) == (start + c) / group
      {
        FittingGroup(start, c, group);
      }
    } else {
      var start, c := UnfitGroup(k, group);
    }
  }

  lemma GroupEven(group: nat)
    requires 1 < group && 64 % group == 0
    ensures group % 2 == 0 && group <= 64
  {
    DivMod(64, group);
    var q := 64 / group;
    if group > 64 { DivUnique(64, group, 0); }
    if q <= 0 { MulMono(q, 0, group); }
    if q >= 33 { MulMono(33, q, group); }
    OddFactor(group, q);
  }

  lemma OddFactor(group: nat, q: nat)
    requires 1 < group <= 64 && q * group == 64
    ensures group % 2 == 0
  {
  }

  lemma GroupStart(start: nat, group: nat)
    requires group > 0 && 64 % group == 0 && start % 64 == 0
    ensures start % group == 0
  {
    var a, b := start / 64, 64 / group;
    DivMod(start, 64);
    DivMod(64, group);
    MulRotates(a, b, group);
    DivUnique(start, group, a * b);
  }

  // ---- The matrix the tiles show -----------------------------------------------------

  /** The scale byte the tile dequant uses for column c. */
  function TileScale(w: Packed, row: int, c: int): int {
    if w.group == 0 then 0 else w.ScaleAt(row, TileGroup(c / 64 * 64, c % 64, w.group))
  }

  /** The matrix the fused kernel multiplies by, whatever the group size: the same
      bytes, and for every column the scale its tile gives it. */
  function Tiled(w: Packed): (v: Packed)
    ensures v.rows == w.rows && v.k == w.k && v.bytes == w.bytes && v.group == 1
  {
    var n := RowStart(w.rows, w.k);
    Packed(w.bytes, seq(if n < 0 then 0 else n, i requires 0 <= i => if w.k == 0 then 0 else TileScale(w, i / w.k, i % w.k)),
           w.rows, w.k, 1)
  }

  lemma GroupBelow(start: nat, c: nat, group: nat, k: nat)
    requires group > 0 && k % group == 0 && start + c < k
    ensures 0 <= start / group + c / group < k / group
  {
    DivMod(start, group);
    DivMod(c, group);
    DivMod(k, group);
    var s, q, t := start / group, c / group, k / group;
    MulSum(s, q, group);
    if s + q >= t { MulMono(t, s + q, group); }
    if s < 0 { MulMono(s, -1, group); }
    if q < 0 { MulMono(q, -1, group); }
  }

  lemma TiledScale(w: Packed, row: nat, c: nat)
    requires w.Good() && row < w.rows && c < w.k
    ensures Tiled(w).ScaleAt(row, c) == TileScale(w, row, c)
  {
    var i := RowStart(row, w.k) + c;
    RowFits(row, w.rows, w.k, c);
    DivUnique(i, w.k, row);
    hide TileScale;
    assert Tiled(w).scales[i] == TileScale(w, row, c);
  }

  /** A column and its place in its tile. */
  lemma TileBase(start: nat, c: nat)
    requires start % 64 == 0 && c < 64
    ensures (start + c) / 64 * 64 == start && (start + c) % 64 == c && (start + c) % 2 == c % 2
  {
    var q := start / 64;
    DivMod(start, 64);
    DivUnique(start + c, 64, q);
    EvenShift(q, c);
  }

  lemma EvenShift(q: int, c: int)
    ensures (q * 64 + c) % 2 == c % 2
  {
    DivMod(c, 2);
    DivUnique(q * 64 + c, 2, q * 32 + c / 2);
  }

  lemma TiledAt(num: Numerics, w: Packed, row: nat, start: nat, c: nat)
    requires w.Good() && row < w.rows && start % 64 == 0 && c < 64 && start + c < w.k
    ensures Tiled(w).At(num, row, start + c) == TileAt(w, num, row, start, c)
  {
    TileBase(start, c);
    TiledScale(w, row, start + c);
    hide Value, TileGroup, RowStart, Nibble, Tiled;
    assert Tiled(w).ByteAt(row, start + c) == w.ByteAt(row, start + c);
    SameValue(num, w.ByteAt(row, start + c), c, start + c, w.ScaleAt(row, TileGroup(start, c, w.group)));
  }

  /** With a fitting group size that is the matrix itself. */
  lemma TileIsMatrix(num: Numerics, w: Packed, row: nat, c: nat)
    requires w.Good() && GroupFits(w.group) && row < w.rows && c < w.k
    ensures Tiled(w).At(num, row, c) == w.At(num, row, c)
  {
    var start, p := TileParts(c);
    FittingGroup(start, p, w.group);
    TiledScale(w, row, c);
    hide Value, TileGroup, RowStart, Nibble, Tiled, GroupFits;
    assert Tiled(w).ByteAt(row, c) == w.ByteAt(row, c);
  }

  lemma TileParts(c: nat) returns (start: nat, p: nat)
    ensures start % 64 == 0 && p < 64 && c == start + p && start == c / 64 * 64 && p == c % 64
  {
    DivMod(c, 64);
    QuotientNat(c, 64);
    start, p := c / 64 * 64, c % 64;
    DivUnique(start, 64, c / 64);
  }
}
