/** The tiled loop nest visits exactly what the naive one does. */
module TiledGemm {
  import opened IntArith

  type Triple = (int, int, int)

  // ---- The naive nest ------------------------------------------------------------------

  function Line(i: int, j: int, k0: int, k1: int): seq<Triple>
    decreases k1 - k0
  {
    if k1 <= k0 then [] else Line(i, j, k0, k1 - 1) + [(i, j, k1 - 1)]
  }

  function Plane(i: int, j0: int, j1: int, k0: int, k1: int): seq<Triple>
    decreases j1 - j0
  {
    if j1 <= j0 then [] else Plane(i, j0, j1 - 1, k0, k1) + Line(i, j1 - 1, k0, k1)
  }

  /** All of [i0, i1) x [j0, j1) x [k0, k1), i outermost. */
  function Box(i0: int, i1: int, j0: int, j1: int, k0: int, k1: int): seq<Triple>
    decreases i1 - i0
  {
    if i1 <= i0 then [] else Box(i0, i1 - 1, j0, j1, k0, k1) + Plane(i1 - 1, j0, j1, k0, k1)
  }

  function Naive(m: nat, n: nat, k: nat): seq<Triple> { Box(0, m, 0, n, 0, k) }

  // ---- Cutting a box -------------------------------------------------------------------

  lemma {:induction false} LineSplit(i: int, j: int, k0: int, k1: int, k2: int)
    requires k0 <= k1 <= k2
    ensures Line(i, j, k0, k2) == Line(i, j, k0, k1) + Line(i, j, k1, k2)
    decreases k2 - k1
  {
    if k1 < k2 { LineSplit(i, j, k0, k1, k2 - 1); }
  }

  lemma {:induction false} PlaneSplitJ(i: int, j0: int, j1: int, j2: int, k0: int, k1: int)
    requires j0 <= j1 <= j2
    ensures Plane(i, j0, j2, k0, k1) == Plane(i, j0, j1, k0, k1) + Plane(i, j1, j2, k0, k1)
    decreases j2 - j1
  {
    if j1 < j2 { PlaneSplitJ(i, j0, j1, j2 - 1, k0, k1); }
  }

  lemma {:induction false} PlaneSplitK(i: int, j0: int, j1: int, k0: int, k1: int, k2: int)
    requires k0 <= k1 <= k2
    ensures multiset(Plane(i, j0, j1, k0, k2)) == multiset(Plane(i, j0, j1, k0, k1)) + multiset(Plane(i, j0, j1, k1, k2))
    decreases j1 - j0
  {
    if j0 < j1 {
      PlaneSplitK(i, j0, j1 - 1, k0, k1, k2);
      LineSplit(i, j1 - 1, k0, k1, k2);
    }
  }

  lemma {:induction false} BoxSplitI(i0: int, i1: int, i2: int, j0: int, j1: int, k0: int, k1: int)
    requires i0 <= i1 <= i2
    ensures multiset(Box(i0, i2, j0, j1, k0, k1))
      == multiset(Box(i0, i1, j0, j1, k0, k1)) + multiset(Box(i1, i2, j0, j1, k0, k1))
    decreases i2 - i1
  {
    if i1 < i2 {
      hide Plane;
      BoxSplitI(i0, i1, i2 - 1, j0, j1, k0, k1);
    }
  }

  lemma {:induction false} BoxSplitJ(i0: int, i1: int, j0: int, j1: int, j2: int, k0: int, k1: int)
    requires j0 <= j1 <= j2
    ensures multiset(Box(i0, i1, j0, j2, k0, k1))
      == multiset(Box(i0, i1, j0, j1, k0, k1)) + multiset(Box(i0, i1, j1, j2, k0, k1))
    decreases i1 - i0
  {
    if i0 < i1 {
      BoxSplitJ(i0, i1 - 1, j0, j1, j2, k0, k1);
      PlaneSplitJ(i1 - 1, j0, j1, j2, k0, k1);
    }
  }

  lemma {:induction false} BoxSplitK(i0: int, i1: int, j0: int, j1: int, k0: int, k1: int, k2: int)
    requires k0 <= k1 <= k2
    ensures multiset(Box(i0, i1, j0, j1, k0, k2))
      == multiset(Box(i0, i1, j0, j1, k0, k1)) + multiset(Box(i0, i1, j0, j1, k1, k2))
    decreases i1 - i0
  {
    if i0 < i1 {
      BoxSplitK(i0, i1 - 1, j0, j1, k0, k1, k2);
      PlaneSplitK(i1 - 1, j0, j1, k0, k1, k2);
    }
  }

  lemma {:induction false} EmptyBox(i0: int, i1: int, j0: int, j1: int, k0: int, k1: int)
    requires i1 <= i0 || j1 <= j0 || k1 <= k0
    ensures Box(i0, i1, j0, j1, k0, k1) == []
    decreases i1 - i0
  {
    if i0 < i1 {
      EmptyBox(i0, i1 - 1, j0, j1, k0, k1);
      EmptyPlane(i1 - 1, j0, j1, k0, k1);
    }
  }

  lemma {:induction false} EmptyPlane(i: int, j0: int, j1: int, k0: int, k1: int)
    requires j1 <= j0 || k1 <= k0
    ensures Plane(i, j0, j1, k0, k1) == []
    decreases j1 - j0
  {
    if j0 < j1 { EmptyPlane(i, j0, j1 - 1, k0, k1); }
  }

  lemma {:induction false} LineVisits(i: int, j: int, k0: int, k1: int, t: Triple)
    ensures multiset(Line(i, j, k0, k1))[t] == if t.0 == i && t.1 == j && k0 <= t.2 < k1 then 1 else 0
    decreases k1 - k0
  {
    if k0 < k1 { LineVisits(i, j, k0, k1 - 1, t); }
  }

  lemma {:induction false} PlaneVisits(i: int, j0: int, j1: int, k0: int, k1: int, t: Triple)
    ensures multiset(Plane(i, j0, j1, k0, k1))[t] == if t.0 == i && j0 <= t.1 < j1 && k0 <= t.2 < k1 then 1 else 0
    decreases j1 - j0
  {
    if j0 < j1 {
      PlaneVisits(i, j0, j1 - 1, k0, k1, t);
      LineVisits(i, j1 - 1, k0, k1, t);
    }
  }

  /** A box visits each of its triples once, and no other. */
  lemma {:induction false} BoxVisits(i0: int, i1: int, j0: int, j1: int, k0: int, k1: int, t: Triple)
    ensures multiset(Box(i0, i1, j0, j1, k0, k1))[t]
      == if i0 <= t.0 < i1 && j0 <= t.1 < j1 && k0 <= t.2 < k1 then 1 else 0
    decreases i1 - i0
  {
    if i0 < i1 {
      BoxVisits(i0, i1 - 1, j0, j1, k0, k1, t);
      PlaneVisits(i1 - 1, j0, j1, k0, k1, t);
    }
  }

  // ---- The tiled nest ------------------------------------------------------------------

  /** The three inner loops: one tile, in order. */
  method AppendTile(before: seq<Triple>, i0: int, i1: int, j0: int, j1: int, k0: int, k1: int) returns (out: seq<Triple>)
    requires i0 <= i1 && j0 <= j1 && k0 <= k1
    ensures out == before + Box(i0, i1, j0, j1, k0, k1)
  {
    out := before;
    for ii := i0 to i1
      invariant out == before + Box(i0, ii, j0, j1, k0, k1)
    {
      for jj := j0 to j1
        invariant out == before + Box(i0, ii, j0, j1, k0, k1) + Plane(ii, j0, jj, k0, k1)
      {
        for kk := k0 to k1
          invariant out == before + Box(i0, ii, j0, j1, k0, k1) + Plane(ii, j0, jj, k0, k1) + Line(ii, jj, k0, kk)
        {
          out := out + [(ii, jj, kk)];
        }
      }
    }
  }

  /** The k tiles of one (i, j) tile. */
  method AppendKTiles(before: seq<Triple>, i0: int, i1: int, j0: int, j1: int, k: nat, bk: nat) returns (out: seq<Triple>)
    requires i0 <= i1 && j0 <= j1 && bk >= 1
    ensures multiset(out) == multiset(before) + multiset(Box(i0, i1, j0, j1, 0, k))
  {
    hide Box;
    out := before;
    var tk := 0;
    EmptyBox(i0, i1, j0, j1, 0, 0);
    while tk < k
      invariant 0 <= tk
      invariant multiset(out) == multiset(before) + multiset(Box(i0, i1, j0, j1, 0, Least(tk, k)))
      decreases k - tk
    {
      var next := Least(tk + bk, k);
      BoxSplitK(i0, i1, j0, j1, 0, tk, next);
      var tile := Box(i0, i1, j0, j1, tk, next);
      assert multiset(out + tile) == multiset(out) + multiset(tile);
      out := AppendTile(out, i0, i1, j0, j1, tk, next);
      tk := tk + bk;
    }
  }

  /** The j tiles of one i tile. */
  method AppendJTiles(before: seq<Triple>, i0: int, i1: int, n: nat, k: nat, bn: nat, bk: nat) returns (out: seq<Triple>)
    requires i0 <= i1 && bn >= 1 && bk >= 1
    ensures multiset(out) == multiset(before) + multiset(Box(i0, i1, 0, n, 0, k))
  {
    hide Box;
    out := before;
    var tj := 0;
    EmptyBox(i0, i1, 0, 0, 0, k);
    while tj < n
      invariant 0 <= tj
      invariant multiset(out) == multiset(before) + multiset(Box(i0, i1, 0, Least(tj, n), 0, k))
      decreases n - tj
    {
      var next := Least(tj + bn, n);
      BoxSplitJ(i0, i1, 0, tj, next, 0, k);
      out := AppendKTiles(out, i0, i1, tj, next, k, bk);
      tj := tj + bn;
    }
  }

  /** tiled_triples: a permutation of naive_triples, for every shape and tile size; each
      triple in range is visited once. */
  method TiledTriples(m: nat, n: nat, k: nat, bm: nat, bn: nat, bk: nat) returns (out: seq<Triple>)
    requires bm >= 1 && bn >= 1 && bk >= 1
    ensures multiset(out) == multiset(Naive(m, n, k))
    ensures forall t: Triple :: multiset(out)[t] == if 0 <= t.0 < m && 0 <= t.1 < n && 0 <= t.2 < k then 1 else 0
  {
    hide Box;
    forall t: Triple ensures multiset(Naive(m, n, k))[t] == if 0 <= t.0 < m && 0 <= t.1 < n && 0 <= t.2 < k then 1 else 0 {
      BoxVisits(0, m, 0, n, 0, k, t);
    }
    out := [];
    var ti := 0;
    EmptyBox(0, 0, 0, n, 0, k);
    while ti < m
      invariant 0 <= ti
      invariant multiset(out) == multiset(Box(0, Least(ti, m), 0, n, 0, k))
      decreases m - ti
    {
      var next := Least(ti + bm, m);
      BoxSplitI(0, ti, next, 0, n, 0, k);
      out := AppendJTiles(out, ti, next, n, k, bn, bk);
      ti := ti + bm;
    }
  }

  // ---- check_shape ---------------------------------------------------------------------

  /** How often output (i, j) is updated. */
  function Updates(s: seq<Triple>, i: int, j: int): nat {
    if s == [] then 0
    else Updates(s[..|s| - 1], i, j) + if s[|s| - 1].0 == i && s[|s| - 1].1 == j then 1 else 0
  }

  lemma {:induction false} UpdatesJoin(a: seq<Triple>, b: seq<Triple>, i: int, j: int)
    ensures Updates(a + b, i, j) == Updates(a, i, j) + Updates(b, i, j)
  {
    if b == [] {
      assert a + b == a;
    } else {
      assert (a + b)[..|a + b| - 1] == a + b[..|b| - 1];
      UpdatesJoin(a, b[..|b| - 1], i, j);
    }
  }

  lemma Cancel(a: multiset<Triple>, b: multiset<Triple>, x: Triple)
    requires a + multiset{x} == b + multiset{x}
    ensures a == b
  {
    assert (a + multiset{x}) - multiset{x} == a;
    assert (b + multiset{x}) - multiset{x} == b;
  }

  lemma Without(b: seq<Triple>, p: nat)
    requires p < |b|
    ensures multiset(b) == multiset(b[..p] + b[p + 1..]) + multiset{b[p]}
  {
    assert b == b[..p] + [b[p]] + b[p + 1..];
  }

  /** The order of the visits does not matter to the counts. */
  lemma {:induction false} UpdatesOfPermutation(a: seq<Triple>, b: seq<Triple>, i: int, j: int)
    requires multiset(a) == multiset(b)
    ensures Updates(a, i, j) == Updates(b, i, j)
    decreases |a|
  {
    if a == [] {
      assert |multiset(b)| == 0;
    } else {
      var most, x := a[..|a| - 1], a[|a| - 1];
      assert a == most + [x];
      assert x in multiset(b);
      var p :| 0 <= p < |b| && b[p] == x;
      var rest := b[..p] + b[p + 1..];
      Without(b, p);
      assert multiset(a) == multiset(most) + multiset{x};
      Cancel(multiset(most), multiset(rest), x);
      assert b == b[..p] + [x] + b[p + 1..];
      UpdatesJoin(b[..p] + [x], b[p + 1..], i, j);
      UpdatesJoin(b[..p], [x], i, j);
      UpdatesJoin(b[..p], b[p + 1..], i, j);
      UpdatesJoin(most, [x], i, j);
      UpdatesOfPermutation(most, rest, i, j);
    }
  }

  lemma {:induction false} UpdatesOfLine(i: int, j: int, k: nat, x: int, y: int)
    ensures Updates(Line(i, j, 0, k), x, y) == if i == x && j == y then k else 0
  {
    if k > 0 {
      UpdatesOfLine(i, j, k - 1, x, y);
      var most := Line(i, j, 0, k - 1);
      assert (most + [(i, j, k - 1)])[..|most|] == most;
    }
  }

  lemma {:induction false} UpdatesOfPlane(i: int, n: nat, k: nat, x: int, y: int)
    ensures Updates(Plane(i, 0, n, 0, k), x, y) == if i == x && 0 <= y < n then k else 0
  {
    if n > 0 {
      UpdatesOfPlane(i, n - 1, k, x, y);
      UpdatesOfLine(i, n - 1, k, x, y);
      UpdatesJoin(Plane(i, 0, n - 1, 0, k), Line(i, n - 1, 0, k), x, y);
    }
  }

  lemma {:induction false} UpdatesOfBox(m: nat, n: nat, k: nat, x: int, y: int)
    ensures Updates(Naive(m, n, k), x, y) == if 0 <= x < m && 0 <= y < n then k else 0
  {
    if m > 0 {
      UpdatesOfBox(m - 1, n, k, x, y);
      UpdatesOfPlane(m - 1, n, k, x, y);
      UpdatesJoin(Box(0, m - 1, 0, n, 0, k), Plane(m - 1, 0, n, 0, k), x, y);
    }
  }

  /** Every output is updated exactly k times, in any traversal with the naive one's
      visits. */
  lemma EveryOutputKTimes(tiled: seq<Triple>, m: nat, n: nat, k: nat, i: int, j: int)
    requires multiset(tiled) == multiset(Naive(m, n, k))
    ensures Updates(tiled, i, j) == if 0 <= i < m && 0 <= j < n then k else 0
  {
    UpdatesOfPermutation(tiled, Naive(m, n, k), i, j);
    UpdatesOfBox(m, n, k, i, j);
  }

  /** The dictionary of update counts. */
  method CountWrites(tiled: seq<Triple>) returns (writes: map<(int, int), nat>)
    ensures forall i, j :: (i, j) in writes <==> Updates(tiled, i, j) > 0
    ensures forall i, j :: (i, j) in writes ==> writes[(i, j)] == Updates(tiled, i, j)
  {
    writes := map[];
    for p := 0 to |tiled|
      invariant forall i, j :: (i, j) in writes <==> Updates(tiled[..p], i, j) > 0
      invariant forall i, j :: (i, j) in writes ==> writes[(i, j)] == Updates(tiled[..p], i, j)
    {
      assert tiled[..p + 1][..p] == tiled[..p];
      var out := (tiled[p].0, tiled[p].1);
      writes := writes[out := (if out in writes then writes[out] else 0) + 1];
    }
    assert tiled[..|tiled|] == tiled;
  }

  function Outputs(m: nat, n: nat): set<(int, int)> {
    set i, j | 0 <= i < m && 0 <= j < n :: (i, j)
  }

  function OutputRow(i: int, n: nat): set<(int, int)> { set j | 0 <= j < n :: (i, j) }

  lemma {:induction false} RowSize(i: int, n: nat)
    ensures |OutputRow(i, n)| == n
  {
    if n > 0 {
      RowSize(i, n - 1);
      assert OutputRow(i, n) == OutputRow(i, n - 1) + {(i, n - 1)};
    }
  }

  lemma {:induction false} OutputCount(m: nat, n: nat)
    ensures |Outputs(m, n)| == m * n
  {
    if m > 0 {
      OutputCount(m - 1, n);
      RowSize(m - 1, n);
      MulSucc(m - 1, n);
      var row := OutputRow(m - 1, n);
      assert Outputs(m, n) == Outputs(m - 1, n) + row;
      assert Outputs(m - 1, n) !! row;
    } else {
      assert Outputs(0, n) == {};
    }
  }

  datatype Problem = ReadSetDiffers | BadWriteCounts | Uncovered(covered: nat, outputs: nat)

  /** check_shape. It reports nothing, except when there are outputs but no reduction
      at all: then no update covers them. */
  method CheckShape(m: nat, n: nat, k: nat, bm: nat, bn: nat, bk: nat) returns (errors: seq<Problem>)
    requires bm >= 1 && bn >= 1 && bk >= 1
    ensures errors == if k == 0 && m * n > 0 then [Uncovered(0, m * n)] else []
  {
    errors := [];
    var naive := Naive(m, n, k);
    var tiled := TiledTriples(m, n, k, bm, bn, bk);
    if multiset(naive) != multiset(tiled) { errors := errors + [ReadSetDiffers]; }
    var writes := CountWrites(tiled);
    forall i, j ensures Updates(tiled, i, j) == if 0 <= i < m && 0 <= j < n then k else 0 {
      EveryOutputKTimes(tiled, m, n, k, i, j);
    }
    if out :| out in writes && writes[out] != k {
      assert out == (out.0, out.1);
      errors := errors + [BadWriteCounts];
    }
    OutputCount(m, n);
    assert writes.Keys == if k > 0 then Outputs(m, n) else {} by { WrittenKeys(writes, m, n, k); }
    if |writes.Keys| != m * n { errors := errors + [Uncovered(|writes.Keys|, m * n)]; }
  }

  lemma WrittenKeys(writes: map<(int, int), nat>, m: nat, n: nat, k: nat)
    requires forall i, j :: (i, j) in writes <==> 0 <= i < m && 0 <= j < n && k > 0
    ensures writes.Keys == if k > 0 then Outputs(m, n) else {}
  {
    forall out | out in writes.Keys ensures k > 0 && out in Outputs(m, n) {
      var i, j := out.0, out.1;
      assert (i, j) == out;
      assert (i, j) in writes;
      assert 0 <= i < m && 0 <= j < n && k > 0;
    }
    forall out | k > 0 && out in Outputs(m, n) ensures out in writes.Keys {
      assert out == (out.0, out.1);
    }
  }

  // ---- The tile flattening ---------------------------------------------------------------

  /** ((i * BN) + j) * BK + k. */
  function Flatten(i: int, j: int, k: int, bn: nat, bk: nat): int { (i * bn + j) * bk + k }

  /** Where a flat offset comes from. */
  function Unflatten(x: int, bn: nat, bk: nat): Triple
    requires bn >= 1 && bk >= 1
  {
    (x / bk / bn, x / bk % bn, x % bk)
  }

  /** Onto [0, BM * BN * BK), and back. */
  lemma FlattenInverse(i: nat, j: nat, k: nat, bm: nat, bn: nat, bk: nat)
    requires i < bm && j < bn && k < bk
    ensures 0 <= Flatten(i, j, k, bn, bk) < bm * bn * bk
    ensures Unflatten(Flatten(i, j, k, bn, bk), bn, bk) == (i, j, k)
  {
    var r := i * bn + j;
    BlockFits(i, bm, bn);
    MulMono(0, i, bn);
    BlockFits(r, bm * bn, bk);
    MulMono(0, r, bk);
    DivUnique(r * bk + k, bk, r);
    DivUnique(r, bn, i);
  }

  lemma UnflattenInverse(x: nat, bm: nat, bn: nat, bk: nat)
    requires bn >= 1 && bk >= 1 && x < bm * bn * bk
    ensures var (i, j, k) := Unflatten(x, bn, bk);
      0 <= i < bm && 0 <= j < bn && 0 <= k < bk && Flatten(i, j, k, bn, bk) == x
  {
    var r := x / bk;
    DivMod(x, bk);
    DivMod(r, bn);
    if r >= bm * bn { MulMono(bm * bn, r, bk); }
    if r < 0 { MulMono(r, -1, bk); }
    var i := r / bn;
    if i >= bm { MulMono(bm, i, bn); }
    if i < 0 { MulMono(i, -1, bn); }
  }

  /** No two local iterations share a slot, for every tile shape. */
  lemma FlattenInjective(i: nat, j: nat, k: nat, i2: nat, j2: nat, k2: nat, bm: nat, bn: nat, bk: nat)
    requires i < bm && j < bn && k < bk && i2 < bm && j2 < bn && k2 < bk
    requires (i * bn + j) * bk + k == (i2 * bn + j2) * bk + k2
    ensures (i, j, k) == (i2, j2, k2)
  {
    FlattenInverse(i, j, k, bm, bn, bk);
    FlattenInverse(i2, j2, k2, bm, bn, bk);
    hide Flatten, Unflatten;
  }
}
