/** The distributed forward's four stages: the fused kernel cut at its linear and
    nonlinear boundaries, each stage over one rank's slice of the reduction. */
module MoeStages {
  import opened IntArith
  import opened MoeFused
  import opened MoeSpec
  import opened MoeTiles
  import opened MoeWeights
  import opened RealArith
  import opened Sums

  /** Entry (e, n, k) of a rank's own w13 buffer, and of its own w2 buffer. */
  function Own13(x: Experts, w: Packed, e: int, n: int, k: int): real { w.At(x.num, RowStart(e, 2 * x.ispp) + n, k) }

  function Own2(x: Experts, w: Packed, e: int, n: int, k: int): real { w.At(x.num, RowStart(e, x.hidden) + n, k) }

  /** w is columns base.. of w13 (or all of it): what a rank holds. */
  ghost predicate W13Columns(x: Experts, w: Packed, base: nat, width: nat) {
    && base + width <= x.hidden
    && forall e, n, k :: 0 <= e < x.count && 0 <= n < 2 * x.ispp && 0 <= k < width ==>
      Own13(x, w, e, n, k) == x.W13At(e, n, base + k)
  }

  ghost predicate W2Columns(x: Experts, w: Packed, base: nat, width: nat) {
    && base + width <= x.ispp
    && forall e, n, k :: 0 <= e < x.count && 0 <= n < x.hidden && 0 <= k < width ==>
      Own2(x, w, e, n, k) == x.W2At(e, n, base + k)
  }

  function Shifted(f: Vec, base: int): Vec { k => f(base + k) }

  function Own13Row(x: Experts, w: Packed, e: int, n: int): Vec { k => Own13(x, w, e, n, k) }

  function Own2Row(x: Experts, w: Packed, e: int, n: int): Vec { k => Own2(x, w, e, n, k) }

  lemma DotShifted(base: int, n: nat, f: Vec, g: Vec, h: Vec)
    requires forall k :: 0 <= k < n ==> h(k) == g(base + k)
    ensures Dot(0, n, Shifted(f, base), h) == Dot(base, base + n, f, g)
  {
    forall k | 0 <= k < n ensures Shifted(f, base)(k) * h(k) == f(base + k) * g(base + k) {
      ShiftedProduct(f, g, h, base, k);
    }
    SumShift(base, n, i => f(i) * g(i), i => Shifted(f, base)(i) * h(i));
  }

  lemma ShiftedProduct(f: Vec, g: Vec, h: Vec, base: int, k: int)
    requires h(k) == g(base + k)
    ensures Shifted(f, base)(k) * h(k) == f(base + k) * g(base + k)
  {
    var a, b := Shifted(f, base)(k), h(k);
    assert a == f(base + k) && b == g(base + k);
  }

  // ---- Stage 0a ------------------------------------------------------------------------

  /** The partial projection of row p over columns [base, base + width). */
  function GateUpPart(x: Experts, r: Routing, a: Mat, base: int, width: int): Mat {
    (p: int, n: int) => if r.Owner(p) >= 0 then Dot(base, base + width, r.Input(a, p), x.W13Row(r.Owner(p), n)) else 0.0
  }

  /** The matmul entry the code computes, from the rank's own buffers. */
  function GateUpEntry(x: Experts, r: Routing, a: Mat, w: Packed, base: nat, width: nat): Mat {
    (p: int, n: int) => Dot(0, width, Shifted(r.Input(a, p), base), Own13Row(x, w, r.Owner(p), n))
  }

  lemma GateUpEntryIs(x: Experts, r: Routing, a: Mat, w: Packed, base: nat, width: nat, p: int, n: int)
    requires W13Columns(x, w, base, width) && 0 <= r.Owner(p) < x.count && 0 <= n < 2 * x.ispp
    ensures GateUpEntry(x, r, a, w, base, width)(p, n) == GateUpPart(x, r, a, base, width)(p, n)
  {
    var e := r.Owner(p);
    var h, g := Own13Row(x, w, e, n), x.W13Row(e, n);
    forall k | 0 <= k < width ensures h(k) == g(base + k) {
      assert Own13(x, w, e, n, k) == x.W13At(e, n, base + k);
    }
    DotShifted(base, width, r.Input(a, p), g, h);
    hide Dot;
  }

  /** _moe_gateup: this rank's partial of both halves, for every row of every owned block. */
  method GateUp(x: Experts, r: Routing, m: nat, a: Mat, w: Packed, base: nat, width: nat, gateUp: array2<real>)
    requires WholeTiles(x) && r.Good(x.count, m) && W13Columns(x, w, base, width)
    requires gateUp.Length0 == |r.rows| && gateUp.Length1 == 2 * x.ispp
    requires forall p, n :: 0 <= p < gateUp.Length0 && 0 <= n < gateUp.Length1 ==> gateUp[p, n] == 0.0
    modifies gateUp
    ensures forall p, n :: 0 <= p < gateUp.Length0 && 0 <= n < gateUp.Length1 ==>
      gateUp[p, n] == GateUpPart(x, r, a, base, width)(p, n)
  {
    hide Dot, W13Columns;
    for mb := 0 to |r.owners|
      invariant forall p, n :: 0 <= p < gateUp.Length0 && 0 <= n < gateUp.Length1 ==>
        gateUp[p, n] == if p < mb * BLOCK_M then GateUpPart(x, r, a, base, width)(p, n) else 0.0
    {
      var expert, tb := r.owners[mb], mb * BLOCK_M;
      forall p: nat | tb <= p < tb + BLOCK_M ensures r.Owner(p) == expert {
        BlockOwner(r, mb, p);
      }
      if expert >= 0 {
        GateUpBlockRows(x, r, a, w, base, width, expert, tb, gateUp);
      }
    }
  }

  /** One 64-column slice assignment. */
  method StoreSlice(dst: array2<real>, entry: Mat, p: nat, n0: nat)
    requires p < dst.Length0 && n0 + TILE <= dst.Length1
    modifies dst
    ensures forall q, n :: 0 <= q < dst.Length0 && 0 <= n < dst.Length1 ==>
      dst[q, n] == if q == p && n0 <= n < n0 + TILE then entry(p, n) else old(dst[q, n])
  {
    forall n | n0 <= n < n0 + TILE {
      dst[p, n] := entry(p, n);
    }
  }

  method GateUpBlockRows(x: Experts, r: Routing, a: Mat, w: Packed, base: nat, width: nat, e: nat, tb: nat,
                         gateUp: array2<real>)
    requires WholeTiles(x) && W13Columns(x, w, base, width) && e < x.count && tb + BLOCK_M <= |r.rows|
    requires gateUp.Length0 == |r.rows| && gateUp.Length1 == 2 * x.ispp
    requires forall p :: tb <= p < tb + BLOCK_M ==> r.Owner(p) == e
    modifies gateUp
    ensures forall p, n :: 0 <= p < gateUp.Length0 && 0 <= n < gateUp.Length1 ==>
      gateUp[p, n] == if tb <= p < tb + BLOCK_M then GateUpPart(x, r, a, base, width)(p, n) else old(gateUp[p, n])
  {
    var entry := GateUpEntry(x, r, a, w, base, width);
    forall p, n | tb <= p < tb + BLOCK_M && 0 <= n < 2 * x.ispp
      ensures entry(p, n) == GateUpPart(x, r, a, base, width)(p, n)
    {
      GateUpEntryIs(x, r, a, w, base, width, p, n);
    }
    hide GateUpEntry, GateUpPart, W13Columns;
    for nb := 0 to x.ispp / TILE
      invariant forall p, n :: 0 <= p < gateUp.Length0 && 0 <= n < gateUp.Length1 ==>
        gateUp[p, n] == if tb <= p < tb + BLOCK_M && (n < nb * TILE || x.ispp <= n < x.ispp + nb * TILE)
          then entry(p, n) else old(gateUp[p, n])
    {
      var n0 := nb * TILE;
      for m := 0 to BLOCK_M
        invariant forall p, n :: 0 <= p < gateUp.Length0 && 0 <= n < gateUp.Length1 ==>
          gateUp[p, n] == if tb <= p < tb + BLOCK_M
              && (n < n0 || x.ispp <= n < x.ispp + n0
                  || (p < tb + m && (n0 <= n < n0 + TILE || x.ispp + n0 <= n < x.ispp + n0 + TILE)))
            then entry(p, n) else old(gateUp[p, n])
      {
        StoreSlice(gateUp, entry, tb + m, n0);
        StoreSlice(gateUp, entry, tb + m, x.ispp + n0);
      }
    }
  }

  // ---- Stage 0b ------------------------------------------------------------------------

  ghost predicate GateUpReady(x: Experts, r: Routing, a: Mat, gateUp: array2<real>)
    reads gateUp
  {
    && gateUp.Length0 == |r.rows| && gateUp.Length1 == 2 * x.ispp
    && forall p, n :: 0 <= p < gateUp.Length0 && 0 <= n < gateUp.Length1 ==>
      gateUp[p, n] == GateUpPart(x, r, a, 0, x.hidden)(p, n)
  }

  lemma EpilogueRow(x: Experts, r: Routing, a: Mat, p: int, n: int)
    requires r.Real(p)
    ensures x.Activated(r.Owner(p), GateUpPart(x, r, a, 0, x.hidden)(p, n),
                        GateUpPart(x, r, a, 0, x.hidden)(p, n + x.ispp), n) == ActAt(x, r, a, p, n)
  {
    hide GateUpPart, Dot;
    InputIsToken(x, r, a, p, n);
    InputIsToken(x, r, a, p, n + x.ispp);
  }

  lemma InputIsToken(x: Experts, r: Routing, a: Mat, p: int, n: int)
    requires r.Real(p)
    ensures GateUpPart(x, r, a, 0, x.hidden)(p, n) == x.GateUp(r.Owner(p), Row(a, r.Token(p)), n)
  {
    var f, v := r.Input(a, p), Row(a, r.Token(p));
    forall c: int ensures f(c) == v(c) {
      assert r.InputAt(a, p, c) == a(r.Token(p), c);
    }
    DotCongr(0, x.hidden, f, x.W13Row(r.Owner(p), n), v, x.W13Row(r.Owner(p), n));
  }

  /** _moe_act_epilogue: every real row, column by column of 64. */
  method ActEpilogue(x: Experts, r: Routing, m: nat, ghost a: Mat, gateUp: array2<real>, act: array2<real>)
    requires WholeTiles(x) && r.Good(x.count, m) && GateUpReady(x, r, a, gateUp) && gateUp != act
    requires act.Length0 == |r.rows| && act.Length1 == x.ispp
    modifies act
    ensures forall p, n :: 0 <= p < act.Length0 && 0 <= n < act.Length1 && r.Real(p) ==> act[p, n] == ActAt(x, r, a, p, n)
  {
    hide ActAt, GateUpReady;
    for mb := 0 to |r.owners|
      invariant forall p, n :: 0 <= p < mb * BLOCK_M && p < act.Length0 && 0 <= n < act.Length1 && r.Real(p) ==>
        act[p, n] == ActAt(x, r, a, p, n)
      invariant GateUpReady(x, r, a, gateUp)
    {
      var expert, tb := r.owners[mb], mb * BLOCK_M;
      forall p: nat | tb <= p < tb + BLOCK_M ensures r.Owner(p) == expert {
        BlockOwner(r, mb, p);
      }
      if expert >= 0 {
        EpilogueBlock(x, r, a, expert, tb, gateUp, act);
      }
    }
  }

  method EpilogueBlock(x: Experts, r: Routing, ghost a: Mat, e: nat, tb: nat, gateUp: array2<real>, act: array2<real>)
    requires WholeTiles(x) && tb + BLOCK_M <= |r.rows| && GateUpReady(x, r, a, gateUp) && gateUp != act
    requires act.Length0 == |r.rows| && act.Length1 == x.ispp
    requires forall p :: tb <= p < tb + BLOCK_M ==> r.Owner(p) == e
    modifies act
    ensures forall p, n :: 0 <= p < act.Length0 && 0 <= n < act.Length1 ==>
      act[p, n] == if tb <= p < tb + BLOCK_M && r.Filled(p) then ActAt(x, r, a, p, n) else old(act[p, n])
  {
    hide ActAt, GateUpReady;
    for nb := 0 to x.ispp / TILE
      invariant forall p, n :: 0 <= p < act.Length0 && 0 <= n < act.Length1 ==>
        act[p, n] == if tb <= p < tb + BLOCK_M && r.Filled(p) && n < nb * TILE then ActAt(x, r, a, p, n)
                     else old(act[p, n])
      invariant GateUpReady(x, r, a, gateUp)
    {
      var n0 := nb * TILE;
      for m := 0 to BLOCK_M
        invariant forall p, n :: 0 <= p < act.Length0 && 0 <= n < act.Length1 ==>
          act[p, n] == if tb <= p < tb + BLOCK_M && r.Filled(p) && (n < n0 || (p < tb + m && n < n0 + TILE))
            then ActAt(x, r, a, p, n) else old(act[p, n])
        invariant GateUpReady(x, r, a, gateUp)
      {
        if r.rows[tb + m] < r.n {
          EpilogueSlice(x, r, a, e, tb + m, n0, gateUp, act);
        }
      }
    }
  }

  method EpilogueSlice(x: Experts, r: Routing, ghost a: Mat, e: nat, p: nat, n0: nat, gateUp: array2<real>, act: array2<real>)
    requires p < |r.rows| && r.Filled(p) && r.Owner(p) == e && GateUpReady(x, r, a, gateUp) && gateUp != act
    requires act.Length0 == |r.rows| && act.Length1 == x.ispp && n0 + TILE <= x.ispp
    modifies act
    ensures forall q, n :: 0 <= q < act.Length0 && 0 <= n < act.Length1 ==>
      act[q, n] == if q == p && n0 <= n < n0 + TILE then ActAt(x, r, a, p, n) else old(act[q, n])
    ensures GateUpReady(x, r, a, gateUp)
  {
    forall n | n0 <= n < n0 + TILE
      ensures x.Activated(e, gateUp[p, n], gateUp[p, n + x.ispp], n) == ActAt(x, r, a, p, n)
    {
      EpilogueRow(x, r, a, p, n);
    }
    hide ActAt;
    forall n | n0 <= n < n0 + TILE {
      act[p, n] := x.Activated(e, gateUp[p, n], gateUp[p, n + x.ispp], n);
    }
  }

  // ---- Stage 1a ------------------------------------------------------------------------

  /** The activation row a block multiplies: zeros for padding. */
  function ActInput(x: Experts, r: Routing, a: Mat, p: int): Vec {
    c => if r.Filled(p) then ActAt(x, r, a, p, c) else 0.0
  }

  function DownPart(x: Experts, r: Routing, a: Mat, base: int, width: int): Mat {
    (p: int, n: int) => if r.Owner(p) >= 0 then Dot(base, base + width, ActInput(x, r, a, p), x.W2Row(r.Owner(p), n)) else 0.0
  }

  ghost predicate ActFull(x: Experts, r: Routing, a: Mat, act: array2<real>)
    reads act
  {
    && act.Length0 == |r.rows| && act.Length1 == x.ispp
    && forall p, n :: 0 <= p < act.Length0 && 0 <= n < act.Length1 && r.Real(p) ==> act[p, n] == ActAt(x, r, a, p, n)
  }

  function SliceVec(slice: seq<real>): Vec { k => if 0 <= k < |slice| then slice[k] else 0.0 }

  /** The matmul entry the code computes from its copy of the activation slice. */
  function DownEntry(x: Experts, slice: seq<real>, w: Packed, e: int, width: nat): Vec {
    n => Dot(0, width, SliceVec(slice), Own2Row(x, w, e, n))
  }

  lemma DownEntryIs(x: Experts, r: Routing, a: Mat, slice: seq<real>, w: Packed, base: nat, width: nat, p: int, n: int)
    requires W2Columns(x, w, base, width) && 0 <= r.Owner(p) < x.count && 0 <= n < x.hidden && |slice| == width
    requires forall k :: 0 <= k < width ==> slice[k] == ActInput(x, r, a, p)(base + k)
    ensures DownEntry(x, slice, w, r.Owner(p), width)(n) == DownPart(x, r, a, base, width)(p, n)
  {
    var e, act := r.Owner(p), ActInput(x, r, a, p);
    hide Dot, ActInput;
    var f, v := SliceVec(slice), Shifted(act, base);
    var h, g := Own2Row(x, w, e, n), x.W2Row(e, n);
    forall k | 0 <= k < width ensures h(k) == g(base + k) {
      assert Own2(x, w, e, n, k) == x.W2At(e, n, base + k);
    }
    forall k | 0 <= k < width ensures f(k) == v(k) {
      assert v(k) == act(base + k);
    }
    hide Own2, Own2Row, SliceVec, Shifted;
    DotCongr(0, width, f, h, v, h);
    DotShifted(base, width, act, g, h);
  }

  /** A block's row of activations, columns base.. ; zeros for padding. */
  method ActSlice(x: Experts, r: Routing, ghost a: Mat, p: nat, base: nat, width: nat, act: array2<real>)
      returns (slice: seq<real>)
    requires p < |r.rows| && r.Owner(p) >= 0 && ActFull(x, r, a, act) && base + width <= x.ispp
    ensures |slice| == width && forall k :: 0 <= k < width ==> slice[k] == ActInput(x, r, a, p)(base + k)
  {
    hide ActAt;
    if r.rows[p] < r.n {
      slice := seq(width, k requires 0 <= k < width reads act => act[p, base + k]);
    } else {
      slice := seq(width, _ => 0.0);
    }
  }

  /** _moe_down: this rank's partial for every row of every owned block. */
  method Down(x: Experts, r: Routing, m: nat, ghost a: Mat, w: Packed, base: nat, width: nat,
              act: array2<real>, partial: array2<real>)
    requires WholeTiles(x) && r.Good(x.count, m) && W2Columns(x, w, base, width) && ActFull(x, r, a, act) && act != partial
    requires partial.Length0 == |r.rows| && partial.Length1 == x.hidden
    requires forall p, n :: 0 <= p < partial.Length0 && 0 <= n < partial.Length1 ==> partial[p, n] == 0.0
    modifies partial
    ensures forall p, n :: 0 <= p < partial.Length0 && 0 <= n < partial.Length1 ==>
      partial[p, n] == DownPart(x, r, a, base, width)(p, n)
  {
    hide DownPart, W2Columns, ActFull;
    assert forall p, n :: r.Owner(p) < 0 ==> DownPart(x, r, a, base, width)(p, n) == 0.0 by { SkippedPart(x, r, a, base, width); }
    for mb := 0 to |r.owners|
      invariant forall p, n :: 0 <= p < partial.Length0 && 0 <= n < partial.Length1 ==>
        partial[p, n] == if p < mb * BLOCK_M then DownPart(x, r, a, base, width)(p, n) else 0.0
      invariant ActFull(x, r, a, act)
    {
      var expert, tb := r.owners[mb], mb * BLOCK_M;
      forall p: nat | tb <= p < tb + BLOCK_M ensures r.Owner(p) == expert {
        BlockOwner(r, mb, p);
      }
      if expert >= 0 {
        DownBlockRows(x, r, a, w, base, width, expert, tb, act, partial);
      }
    }
  }

  lemma SkippedPart(x: Experts, r: Routing, a: Mat, base: int, width: int)
    ensures forall p, n :: r.Owner(p) < 0 ==> DownPart(x, r, a, base, width)(p, n) == 0.0
  {
  }

  method DownBlockRows(x: Experts, r: Routing, ghost a: Mat, w: Packed, base: nat, width: nat, e: nat, tb: nat,
                       act: array2<real>, partial: array2<real>)
    requires WholeTiles(x) && W2Columns(x, w, base, width) && e < x.count && tb + BLOCK_M <= |r.rows|
    requires ActFull(x, r, a, act) && act != partial && partial.Length0 == |r.rows| && partial.Length1 == x.hidden
    requires forall p :: tb <= p < tb + BLOCK_M ==> r.Owner(p) == e
    modifies partial
    ensures forall p, n :: 0 <= p < partial.Length0 && 0 <= n < partial.Length1 ==>
      partial[p, n] == if tb <= p < tb + BLOCK_M then DownPart(x, r, a, base, width)(p, n) else old(partial[p, n])
  {
    hide DownPart, ActFull;
    for nb := 0 to x.hidden / TILE
      invariant forall p, n :: 0 <= p < partial.Length0 && 0 <= n < partial.Length1 ==>
        partial[p, n] == if tb <= p < tb + BLOCK_M && n < nb * TILE then DownPart(x, r, a, base, width)(p, n)
                         else old(partial[p, n])
      invariant ActFull(x, r, a, act)
    {
      var n0 := nb * TILE;
      for m := 0 to BLOCK_M
        invariant forall p, n :: 0 <= p < partial.Length0 && 0 <= n < partial.Length1 ==>
          partial[p, n] == if tb <= p < tb + BLOCK_M && (n < n0 || (p < tb + m && n < n0 + TILE))
            then DownPart(x, r, a, base, width)(p, n) else old(partial[p, n])
        invariant ActFull(x, r, a, act)
      {
        DownSlice(x, r, a, w, base, width, e, tb + m, n0, act, partial);
      }
    }
  }

  method DownSlice(x: Experts, r: Routing, ghost a: Mat, w: Packed, base: nat, width: nat, e: nat, p: nat, n0: nat,
                   act: array2<real>, partial: array2<real>)
    requires W2Columns(x, w, base, width) && e < x.count && p < |r.rows| && r.Owner(p) == e && n0 + TILE <= x.hidden
    requires ActFull(x, r, a, act) && act != partial && partial.Length0 == |r.rows| && partial.Length1 == x.hidden
    modifies partial
    ensures forall q, n :: 0 <= q < partial.Length0 && 0 <= n < partial.Length1 ==>
      partial[q, n] == if q == p && n0 <= n < n0 + TILE then DownPart(x, r, a, base, width)(p, n) else old(partial[q, n])
    ensures ActFull(x, r, a, act)
  {
    hide DownPart;
    var slice := ActSlice(x, r, a, p, base, width, act);
    var entry := DownEntry(x, slice, w, e, width);
    forall n | n0 <= n < n0 + TILE ensures entry(n) == DownPart(x, r, a, base, width)(p, n) {
      DownEntryIs(x, r, a, slice, w, base, width, p, n);
    }
    hide DownEntry;
    StoreSlice(partial, (_, n) => entry(n), p, n0);
  }

  // ---- Stage 1b ------------------------------------------------------------------------

  ghost predicate PartialReady(x: Experts, r: Routing, a: Mat, partial: array2<real>)
    reads partial
  {
    && partial.Length0 == |r.rows| && partial.Length1 == x.hidden
    && forall p, n :: 0 <= p < partial.Length0 && 0 <= n < partial.Length1 ==>
      partial[p, n] == DownPart(x, r, a, 0, x.ispp)(p, n)
  }

  lemma DownPartIs(x: Experts, r: Routing, a: Mat, p: int, n: int)
    requires r.Real(p)
    ensures DownPart(x, r, a, 0, x.ispp)(p, n) == x.Down(r.Owner(p), x.ActVec(r.Owner(p), Row(a, r.Token(p))), n)
  {
    var f, v := ActInput(x, r, a, p), x.ActVec(r.Owner(p), Row(a, r.Token(p)));
    forall c: int ensures f(c) == v(c) {
      assert f(c) == ActAt(x, r, a, p, c);
    }
    hide ActInput, ActAt;
    DotCongr(0, x.ispp, f, x.W2Row(r.Owner(p), n), v, x.W2Row(r.Owner(p), n));
  }

  lemma CombineValue(x: Experts, r: Routing, count: nat, m: nat, a: Mat, p: int, n: int)
    requires r.Good(count, m) && r.Real(p)
    ensures Times(DownPart(x, r, a, 0, x.ispp)(p, n) + x.b2(r.Owner(p), n), r.weights[p]) == RowValue(x, r, a, p)(n)
  {
    hide DownPart, Times, RowValue, Experts.Down, Experts.ActVec, Dot;
    DownPartIs(x, r, a, p, n);
    RowValueAt(x, r, a, p, n);
  }

  /** _moe_combine. */
  method Combine(x: Experts, r: Routing, m: nat, ghost a: Mat, partial: array2<real>, out: array2<real>)
    requires WholeTiles(x) && r.Good(x.count, m) && PartialReady(x, r, a, partial) && partial != out
    requires out.Length0 == m && out.Length1 == x.hidden
    modifies out
    ensures forall t, c :: 0 <= t < m && 0 <= c < x.hidden ==> out[t, c] == old(out[t, c]) + Combined(x, r, a, t, c)
  {
    hide PartialReady, Added, Contribution;
    assert forall t, c :: 0 <= t < m && 0 <= c < x.hidden ==> Added(x, r, a, 0, 0, t, c) == 0.0 by { AddedNone(x, r, a); }
    for mb := 0 to |r.owners|
      invariant forall t, c :: 0 <= t < m && 0 <= c < x.hidden ==>
        out[t, c] == old(out[t, c]) + Added(x, r, a, 0, mb * BLOCK_M, t, c)
      invariant PartialReady(x, r, a, partial)
    {
      var expert, tb := r.owners[mb], mb * BLOCK_M;
      forall p: nat | tb <= p < tb + BLOCK_M ensures r.Owner(p) == expert {
        BlockOwner(r, mb, p);
      }
      forall t, c | 0 <= t < m && 0 <= c < x.hidden
        ensures Added(x, r, a, 0, tb + BLOCK_M, t, c)
          == Added(x, r, a, 0, tb, t, c) + Added(x, r, a, tb, tb + BLOCK_M, t, c)
        ensures expert < 0 ==> Added(x, r, a, tb, tb + BLOCK_M, t, c) == 0.0
      {
        AddedBlock(x, r, a, tb, t, c);
      }
      if expert >= 0 {
        CombineOwned(x, r, a, expert, m, tb, partial, out);
      }
    }
    forall t, c | 0 <= t < m && 0 <= c < x.hidden
      ensures Added(x, r, a, 0, |r.rows|, t, c) == Combined(x, r, a, t, c)
    {
      AddedAll(x, r, a, t, c);
    }
  }

  method CombineOwned(x: Experts, r: Routing, ghost a: Mat, e: nat, m: nat, tb: nat, partial: array2<real>, out: array2<real>)
    requires WholeTiles(x) && r.Good(x.count, m) && e < x.count && tb + BLOCK_M <= |r.rows|
    requires PartialReady(x, r, a, partial) && partial != out && out.Length0 == m && out.Length1 == x.hidden
    requires forall p :: tb <= p < tb + BLOCK_M ==> r.Owner(p) == e
    modifies out
    ensures forall t, c :: 0 <= t < m && 0 <= c < x.hidden ==>
      out[t, c] == old(out[t, c]) + Added(x, r, a, tb, tb + BLOCK_M, t, c)
    ensures PartialReady(x, r, a, partial)
  {
    hide PartialReady, Added;
    for nb := 0 to x.hidden / TILE
      invariant forall t, c :: 0 <= t < m && 0 <= c < x.hidden ==>
        out[t, c] == old(out[t, c]) + if c < nb * TILE then Added(x, r, a, tb, tb + BLOCK_M, t, c) else 0.0
      invariant PartialReady(x, r, a, partial)
    {
      CombineColumns(x, r, a, e, m, tb, nb * TILE, partial, out);
    }
  }

  method CombineColumns(x: Experts, r: Routing, ghost a: Mat, e: nat, m: nat, tb: nat, n0: nat,
                        partial: array2<real>, out: array2<real>)
    requires r.Good(x.count, m) && e < x.count && tb + BLOCK_M <= |r.rows| && n0 + TILE <= x.hidden
    requires PartialReady(x, r, a, partial) && partial != out && out.Length0 == m && out.Length1 == x.hidden
    requires forall p :: tb <= p < tb + BLOCK_M ==> r.Owner(p) == e
    modifies out
    ensures forall t, c :: 0 <= t < m && 0 <= c < x.hidden ==>
      out[t, c] == old(out[t, c]) + if n0 <= c < n0 + TILE then Added(x, r, a, tb, tb + BLOCK_M, t, c) else 0.0
    ensures PartialReady(x, r, a, partial)
  {
    hide PartialReady, Added, Gain;
    forall t, c | 0 <= t < m && 0 <= c < x.hidden ensures Added(x, r, a, tb, tb, t, c) == 0.0 {
      AddedStep(x, r, a, tb, tb, t, c);
    }
    for i := 0 to BLOCK_M
      invariant forall t, c :: 0 <= t < m && 0 <= c < x.hidden ==>
        out[t, c] == old(out[t, c]) + if n0 <= c < n0 + TILE then Added(x, r, a, tb, tb + i, t, c) else 0.0
      invariant PartialReady(x, r, a, partial)
    {
      CombineOne(x, r, a, e, m, tb + i, n0, partial, out);
      ghost var p, next := tb + i, tb + i + 1;
      forall t, c | 0 <= t < m && 0 <= c < x.hidden
        ensures Added(x, r, a, tb, next, t, c) == Added(x, r, a, tb, p, t, c) + Gain(x, r, a, p, t, c)
      {
        AddedStep(x, r, a, tb, p, t, c);
      }
    }
  }

  method CombineOne(x: Experts, r: Routing, ghost a: Mat, e: nat, m: nat, p: nat, n0: nat,
                    partial: array2<real>, out: array2<real>)
    requires r.Good(x.count, m) && p < |r.rows| && r.Owner(p) == e && n0 + TILE <= x.hidden
    requires PartialReady(x, r, a, partial) && partial != out && out.Length0 == m && out.Length1 == x.hidden
    modifies out
    ensures forall t, c :: 0 <= t < m && 0 <= c < x.hidden ==>
      out[t, c] == old(out[t, c]) + if n0 <= c < n0 + TILE then Gain(x, r, a, p, t, c) else 0.0
    ensures PartialReady(x, r, a, partial)
  {
    hide Gain, Contribution, RowValue, DownPart;
    forall t, c | 0 <= t < m && 0 <= c < x.hidden
      ensures Gain(x, r, a, p, t, c) == if r.Filled(p) && r.Token(p) == t then RowValue(x, r, a, p)(c) else 0.0
    {
      GainIs(x, r, a, t, c, p);
    }
    if r.rows[p] < r.n {
      TokenInRange(r, x.count, m, p);
      var val := new real[1, TILE]((_, n) requires 0 <= n < TILE reads partial => partial[p, n0 + n]);
      forall n | 0 <= n < TILE
        ensures Times(val[0, n] + x.b2(e, n0 + n), r.weights[p]) == RowValue(x, r, a, p)(n0 + n)
      {
        CombineValue(x, r, x.count, m, a, p, n0 + n);
      }
      CombineRow(x, RowValue(x, r, a, p), e, r.Token(p), n0, 0, r.weights[p], val, out);
    }
  }
}
