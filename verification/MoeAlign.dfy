/** Block-aligned expert routing: flat (token, selection) indices grouped by
    expert, each group padded with a sentinel to whole blocks. */
module MoeAlign {
  import opened IntArith
  import opened Sums

  datatype Result<+T> = Ok(value: T) | BadShape | BadBlock

  /** The flat indices below n routed to expert e, in increasing order. */
  function PerExpert(ids: seq<int>, e: int, n: nat): (r: seq<int>)
    requires n <= |ids|
    ensures forall i :: 0 <= i < |r| ==> 0 <= r[i] < n && ids[r[i]] == e
    ensures forall i, k :: 0 <= i < k < |r| ==> r[i] < r[k]
  {
    if n == 0 then [] else PerExpert(ids, e, n - 1) + if ids[n - 1] == e then [n - 1] else []
  }

  lemma {:induction false} PerExpertFinds(ids: seq<int>, n: nat, f: nat) returns (i: nat)
    requires f < n <= |ids|
    ensures i < |PerExpert(ids, ids[f], n)| && PerExpert(ids, ids[f], n)[i] == f
  {
    if f == n - 1 {
      i := |PerExpert(ids, ids[f], n - 1)|;
    } else {
      i := PerExpertFinds(ids, n - 1, f);
    }
  }

  /** Blocks that hold n rows. */
  function Blocks(n: nat, bs: nat): (b: nat)
    requires bs > 0
  {
    DivMod(n + bs - 1, bs);
    (n + bs - 1) / bs
  }

  function Padded(n: nat, bs: nat): (r: nat)
    requires bs > 0
    ensures n <= r < n + bs
  {
    DivMod(n + bs - 1, bs);
    Blocks(n, bs) * bs
  }

  /** Expert e's rows, then the sentinel up to a whole number of blocks. */
  function Chunk(ids: seq<int>, e: int, bs: nat): (r: seq<int>)
    requires bs > 0
    ensures |r| == Padded(|PerExpert(ids, e, |ids|)|, bs)
  {
    var mine := PerExpert(ids, e, |ids|);
    mine + seq(Padded(|mine|, bs) - |mine|, _ => |ids|)
  }

  function SortedIds(ids: seq<int>, experts: nat, bs: nat): seq<int>
    requires bs > 0
  {
    if experts == 0 then [] else SortedIds(ids, experts - 1, bs) + Chunk(ids, experts - 1, bs)
  }

  function Owners(ids: seq<int>, e: int, bs: nat): (r: seq<int>)
    requires bs > 0
    ensures |r| == Blocks(|PerExpert(ids, e, |ids|)|, bs) && forall b :: 0 <= b < |r| ==> r[b] == e
  {
    seq(Blocks(|PerExpert(ids, e, |ids|)|, bs), _ => e)
  }

  function ExpertIds(ids: seq<int>, experts: nat, bs: nat): seq<int>
    requires bs > 0
  {
    if experts == 0 then [] else ExpertIds(ids, experts - 1, bs) + Owners(ids, experts - 1, bs)
  }

  lemma {:induction false} Lengths(ids: seq<int>, experts: nat, bs: nat)
    requires bs > 0
    ensures |SortedIds(ids, experts, bs)| == |ExpertIds(ids, experts, bs)| * bs
  {
    if experts > 0 {
      Lengths(ids, experts - 1, bs);
      MulSum(|ExpertIds(ids, experts - 1, bs)|, Blocks(|PerExpert(ids, experts - 1, |ids|)|, bs), bs);
    }
  }

  /** The first row of block b. */
  function FirstRow(b: int, bs: int): int { b * bs }

  lemma SortedLength(ids: seq<int>, experts: nat, bs: nat)
    requires bs > 0
    ensures |SortedIds(ids, experts, bs)| == FirstRow(|ExpertIds(ids, experts, bs)|, bs)
  {
    Lengths(ids, experts, bs);
  }

  predicate Routed(e: int, experts: nat) { 0 <= e < experts }

  /** Rows are either a valid flat index of the block's own expert, or the sentinel. */
  ghost predicate RowOk(ids: seq<int>, experts: nat, row: int, e: int) {
    && 0 <= e < experts
    && (row == |ids| || (0 <= row < |ids| && ids[row] == e))
  }

  lemma ChunkRow(ids: seq<int>, e: nat, bs: nat, i: nat)
    requires bs > 0 && i < |Chunk(ids, e, bs)|
    ensures var mine := PerExpert(ids, e, |ids|);
      Chunk(ids, e, bs)[i] == if i < |mine| then mine[i] else |ids|
  {
  }

  lemma NoneYet(ids: seq<int>, bs: nat)
    requires bs > 0
    ensures SortedIds(ids, 0, bs) == []
  {
  }

  /** The expert whose chunk position p is in. */
  function OwnerOf(ids: seq<int>, experts: nat, bs: nat, p: nat): int
    requires bs > 0
  {
    if experts == 0 then -1
    else if p < |SortedIds(ids, experts - 1, bs)| then OwnerOf(ids, experts - 1, bs, p) else experts - 1
  }

  /** expert_ids says whose block it is. */
  lemma {:induction false} OwnerIsExpertId(ids: seq<int>, experts: nat, bs: nat, p: nat)
    requires bs > 0 && p < |SortedIds(ids, experts, bs)|
    ensures 0 <= p / bs < |ExpertIds(ids, experts, bs)|
    ensures ExpertIds(ids, experts, bs)[p / bs] == OwnerOf(ids, experts, bs, p)
  {
    hide Chunk, Blocks, Owners, Padded, SortedIds, FirstRow, PerExpert;
    NoneYet(ids, bs);
    SortedLength(ids, experts, bs);
    SortedLength(ids, experts - 1, bs);
    InBlocks(p, bs, |ExpertIds(ids, experts, bs)|);
    InBlocks(p, bs, |ExpertIds(ids, experts - 1, bs)|);
    if p < |SortedIds(ids, experts - 1, bs)| { OwnerIsExpertId(ids, experts - 1, bs, p); }
  }

  lemma InBlocks(p: nat, bs: nat, blocks: nat)
    requires bs > 0
    ensures 0 <= p / bs && (p / bs < blocks <==> p < FirstRow(blocks, bs))
  {
    DivMod(p, bs);
    if p / bs < blocks { BlockFits(p / bs, blocks, bs); } else { MulMono(blocks, p / bs, bs); }
  }

  /** A row is an earlier expert's, or in the last expert's chunk. */
  lemma RowAt(ids: seq<int>, experts: nat, bs: nat, p: nat)
    requires bs > 0 && experts > 0 && p < |SortedIds(ids, experts, bs)|
    ensures var before, mine := SortedIds(ids, experts - 1, bs), PerExpert(ids, experts - 1, |ids|);
      SortedIds(ids, experts, bs)[p] ==
        if p < |before| then before[p] else if p - |before| < |mine| then mine[p - |before|] else |ids|
  {
    hide Padded, PerExpert;
    var before := |SortedIds(ids, experts - 1, bs)|;
    if p >= before { ChunkRow(ids, experts - 1, bs, p - before); }
  }

  /** Every row is an index routed to the block's own expert, or padding. */
  lemma {:induction false} RowsOk(ids: seq<int>, experts: nat, bs: nat, p: nat)
    requires bs > 0 && p < |SortedIds(ids, experts, bs)|
    ensures RowOk(ids, experts, SortedIds(ids, experts, bs)[p], OwnerOf(ids, experts, bs, p))
  {
    hide SortedIds;
    NoneYet(ids, bs);
    RowAt(ids, experts, bs, p);
    if p < |SortedIds(ids, experts - 1, bs)| { RowsOk(ids, experts - 1, bs, p); }
  }

  lemma ChunkHolds(ids: seq<int>, experts: nat, bs: nat, i: nat)
    requires bs > 0 && experts > 0 && i < |PerExpert(ids, experts - 1, |ids|)|
    ensures var p := |SortedIds(ids, experts - 1, bs)| + i;
      p < |SortedIds(ids, experts, bs)| && SortedIds(ids, experts, bs)[p] == PerExpert(ids, experts - 1, |ids|)[i]
  {
    hide Padded, PerExpert;
  }

  lemma EarlierHolds(ids: seq<int>, experts: nat, bs: nat, p: nat)
    requires bs > 0 && experts > 0 && p < |SortedIds(ids, experts - 1, bs)|
    ensures p < |SortedIds(ids, experts, bs)| && SortedIds(ids, experts, bs)[p] == SortedIds(ids, experts - 1, bs)[p]
  {
    hide Chunk, Padded, PerExpert;
  }

  /** Where the valid index f ends up. */
  lemma {:induction false} ValidAppears(ids: seq<int>, experts: nat, bs: nat, f: nat) returns (p: nat)
    requires bs > 0 && f < |ids| && Routed(ids[f], experts)
    ensures p < |SortedIds(ids, experts, bs)| && SortedIds(ids, experts, bs)[p] == f
  {
    hide SortedIds, PerExpert;
    if ids[f] == experts - 1 {
      var i := PerExpertFinds(ids, |ids|, f);
      ChunkHolds(ids, experts, bs, i);
      p := |SortedIds(ids, experts - 1, bs)| + i;
    } else {
      p := ValidAppears(ids, experts - 1, bs, f);
      EarlierHolds(ids, experts, bs, p);
    }
  }

  /** Two positions with real rows: in order of expert, and within one expert in
      order of index. So no index appears twice, and the grouping is stable. */
  lemma {:induction false} RowsInOrder(ids: seq<int>, experts: nat, bs: nat, p: nat, q: nat)
    requires bs > 0 && p < q < |SortedIds(ids, experts, bs)| && experts > 0
    requires SortedIds(ids, experts, bs)[p] != |ids| && SortedIds(ids, experts, bs)[q] != |ids|
    ensures var f, g := SortedIds(ids, experts, bs)[p], SortedIds(ids, experts, bs)[q];
      0 <= f < |ids| && 0 <= g < |ids| && (ids[f] < ids[g] || (ids[f] == ids[g] && f < g))
  {
    hide SortedIds;
    RowsOk(ids, experts, bs, p);
    RowsOk(ids, experts, bs, q);
    RowAt(ids, experts, bs, p);
    RowAt(ids, experts, bs, q);
    var before := |SortedIds(ids, experts - 1, bs)|;
    if q < before {
      NoneYet(ids, bs);
      RowsInOrder(ids, experts - 1, bs, p, q);
    } else if p < before {
      RowsOk(ids, experts - 1, bs, p);
    }
  }

  /** Padding comes after all of its expert's rows. */
  lemma {:induction false} PaddingLast(ids: seq<int>, experts: nat, bs: nat, p: nat, q: nat)
    requires bs > 0 && p < q < |SortedIds(ids, experts, bs)|
    requires OwnerOf(ids, experts, bs, p) == OwnerOf(ids, experts, bs, q) && SortedIds(ids, experts, bs)[p] == |ids|
    ensures SortedIds(ids, experts, bs)[q] == |ids|
  {
    hide SortedIds, PerExpert;
    NoneYet(ids, bs);
    RowAt(ids, experts, bs, p);
    RowAt(ids, experts, bs, q);
    var before := |SortedIds(ids, experts - 1, bs)|;
    if q < before {
      PaddingLast(ids, experts - 1, bs, p, q);
    } else if p < before {
      RowsOk(ids, experts - 1, bs, p);
    }
  }

  /** The layout by its two arrays: each row is the sentinel or an index routed to its
      block's expert; blocks are in order of expert; within one expert the indices come
      first, increasing, and the sentinels after them; and no block is all sentinels. */
  lemma LayoutIs(ids: seq<int>, experts: nat, bs: nat, p: nat, q: nat)
    requires bs > 0 && p < q < |SortedIds(ids, experts, bs)|
    ensures 0 <= p / bs < |ExpertIds(ids, experts, bs)| && 0 <= q / bs < |ExpertIds(ids, experts, bs)|
    ensures var rows, owners, none := SortedIds(ids, experts, bs), ExpertIds(ids, experts, bs), |ids|;
      && 0 <= owners[p / bs] <= owners[q / bs] < experts
      && (rows[p] == none || (0 <= rows[p] < none && ids[rows[p]] == owners[p / bs]))
      && (rows[q] == none || (0 <= rows[q] < none && ids[rows[q]] == owners[q / bs]))
      && (owners[p / bs] == owners[q / bs] && rows[p] == none ==> rows[q] == none)
      && (owners[p / bs] == owners[q / bs] && rows[q] != none ==> rows[p] < rows[q])
  {
    OwnerIsExpertId(ids, experts, bs, p);
    OwnerIsExpertId(ids, experts, bs, q);
    RowsOk(ids, experts, bs, p);
    RowsOk(ids, experts, bs, q);
    OwnersInOrder(ids, experts, bs, p, q);
    hide SortedIds, ExpertIds, OwnerOf;
    var rows := SortedIds(ids, experts, bs);
    if OwnerOf(ids, experts, bs, p) == OwnerOf(ids, experts, bs, q) {
      if rows[p] == |ids| {
        PaddingLast(ids, experts, bs, p, q);
      } else if rows[q] != |ids| {
        RowsInOrder(ids, experts, bs, p, q);
      }
    }
  }

  lemma {:induction false} OwnersInOrder(ids: seq<int>, experts: nat, bs: nat, p: nat, q: nat)
    requires bs > 0 && p < q < |SortedIds(ids, experts, bs)|
    ensures OwnerOf(ids, experts, bs, p) <= OwnerOf(ids, experts, bs, q)
  {
    NoneYet(ids, bs);
    hide SortedIds;
    if experts > 0 {
      var before := |SortedIds(ids, experts - 1, bs)|;
      if q < before {
        OwnersInOrder(ids, experts - 1, bs, p, q);
      } else if p < before {
        RowsOk(ids, experts - 1, bs, p);
      }
    }
  }

  lemma FirstRows(a: nat, b: nat, bs: nat)
    requires bs > 0
    ensures FirstRow(a, bs) >= 0 && FirstRow(a + b, bs) == FirstRow(a, bs) + FirstRow(b, bs)
    ensures a < b ==> FirstRow(a, bs) + bs <= FirstRow(b, bs)
  {
    MulMono(0, a, bs);
    MulSum(a, b, bs);
    if a < b { BlockFits(a, b, bs); }
  }

  /** Every block has at least one real row: its first. So no block is -1. */
  lemma {:induction false} BlockHasRow(ids: seq<int>, experts: nat, bs: nat, b: nat)
    requires bs > 0 && b < |ExpertIds(ids, experts, bs)|
    ensures 0 <= FirstRow(b, bs) < |SortedIds(ids, experts, bs)|
    ensures SortedIds(ids, experts, bs)[FirstRow(b, bs)] < |ids|
    ensures ExpertIds(ids, experts, bs)[b] >= 0
  {
    hide FirstRow, Padded, Blocks, Chunk, SortedIds, PerExpert, Owners;
    var eb := |ExpertIds(ids, experts - 1, bs)|;
    SortedLength(ids, experts - 1, bs);
    if b < eb {
      FirstRows(b, eb, bs);
      BlockHasRow(ids, experts - 1, bs, b);
      EarlierHolds(ids, experts, bs, FirstRow(b, bs));
    } else {
      FirstRowReal(|PerExpert(ids, experts - 1, |ids|)|, bs, b - eb);
      FirstRows(eb, b - eb, bs);
      ChunkHolds(ids, experts, bs, FirstRow(b - eb, bs));
    }
  }

  lemma FirstRowReal(n: nat, bs: nat, b: nat)
    requires bs > 0 && b < Blocks(n, bs)
    ensures 0 <= FirstRow(b, bs) < n
  {
    DivMod(n + bs - 1, bs);
    BlockFits(b, Blocks(n, bs), bs);
    MulMono(0, b, bs);
  }

  /** The rows of all experts below `experts`, counted. */
  function Count(ids: seq<int>, experts: nat, n: nat): nat
    requires n <= |ids|
  {
    if n == 0 then 0 else Count(ids, experts, n - 1) + if Routed(ids[n - 1], experts) then 1 else 0
  }

  lemma {:induction false} CountGrows(ids: seq<int>, experts: nat, n: nat)
    requires n <= |ids|
    ensures Count(ids, experts + 1, n) == Count(ids, experts, n) + |PerExpert(ids, experts, n)|
    ensures Count(ids, experts, n) <= n
  {
    if n > 0 { CountGrows(ids, experts, n - 1); }
  }

  lemma {:induction false} CountNone(ids: seq<int>, n: nat)
    requires n <= |ids|
    ensures Count(ids, 0, n) == 0
  {
    if n > 0 { CountNone(ids, n - 1); }
  }

  /** EM never exceeds what the compiled binding allocates:
      (ceil(N / bs) + E) * bs. */
  lemma EmBounded(ids: seq<int>, experts: nat, bs: nat)
    requires bs > 0
    ensures |SortedIds(ids, experts, bs)| <= (Blocks(|ids|, bs) + experts) * bs
  {
    EmByExpert(ids, experts, bs);
    CountGrows(ids, experts, |ids|);
    MulSum(Blocks(|ids|, bs), experts, bs);
    assert |ids| <= Padded(|ids|, bs);
  }

  lemma {:induction false} EmByExpert(ids: seq<int>, experts: nat, bs: nat)
    requires bs > 0
    ensures |SortedIds(ids, experts, bs)| <= Count(ids, experts, |ids|) + experts * bs
  {
    if experts > 0 {
      EmByExpert(ids, experts - 1, bs);
      CountGrows(ids, experts - 1, |ids|);
      MulSucc(experts - 1, bs);
      hide PerExpert;
    } else {
      CountNone(ids, |ids|);
    }
  }

  // ---- Summing over the sorted layout -----------------------------------------------

  /** The value of a row: nothing for the sentinel. */
  function RowTerm(n: nat, row: int, g: Vec): real { if 0 <= row < n then g(row) else 0.0 }

  function SumOver(rows: seq<int>, n: nat, g: Vec): real {
    if rows == [] then 0.0 else SumOver(rows[..|rows| - 1], n, g) + RowTerm(n, rows[|rows| - 1], g)
  }

  lemma {:induction false} SumOverJoin(a: seq<int>, b: seq<int>, n: nat, g: Vec)
    ensures SumOver(a + b, n, g) == SumOver(a, n, g) + SumOver(b, n, g)
  {
    if b == [] {
      assert a + b == a;
    } else {
      var most := b[..|b| - 1];
      SumOverJoin(a, most, n, g);
      assert (a + b)[..|a + b| - 1] == a + most;
    }
  }

  lemma {:induction false} SumOverPadding(k: nat, n: nat, g: Vec)
    ensures SumOver(seq(k, _ => n), n, g) == 0.0
  {
    if k > 0 {
      SumOverPadding(k - 1, n, g);
      assert seq(k, _ => n)[..k - 1] == seq(k - 1, _ => n);
    }
  }

  function Only(ids: seq<int>, e: int, g: Vec): Vec {
    f => if 0 <= f < |ids| && ids[f] == e then g(f) else 0.0
  }

  function Below(ids: seq<int>, experts: nat, g: Vec): Vec {
    f => if 0 <= f < |ids| && Routed(ids[f], experts) then g(f) else 0.0
  }

  lemma SumOverOne(rows: seq<int>, row: int, n: nat, g: Vec)
    ensures SumOver(rows + [row], n, g) == SumOver(rows, n, g) + RowTerm(n, row, g)
  {
    assert (rows + [row])[..|rows|] == rows;
  }

  lemma BelowNone(ids: seq<int>, g: Vec)
    ensures Sum(0, |ids|, Below(ids, 0, g)) == 0.0
  {
    var h := Below(ids, 0, g);
    forall f: int | 0 <= f < |ids| ensures h(f) == 0.0 {
      assert !Routed(ids[f], 0);
    }
    SumZero(0, |ids|, h);
  }

  lemma BelowGrows(ids: seq<int>, e: nat, g: Vec)
    ensures Sum(0, |ids|, Below(ids, e + 1, g)) == Sum(0, |ids|, Below(ids, e, g)) + Sum(0, |ids|, Only(ids, e, g))
  {
    var a, b, c := Below(ids, e, g), Only(ids, e, g), Below(ids, e + 1, g);
    forall f: int | 0 <= f < |ids| ensures c(f) == a(f) + b(f) {
      assert Routed(ids[f], e + 1) <==> Routed(ids[f], e) || ids[f] == e;
    }
    SumAdd(0, |ids|, a, b, c);
  }

  lemma {:induction false} SumOverExpert(ids: seq<int>, e: int, n: nat, g: Vec)
    requires n <= |ids|
    ensures SumOver(PerExpert(ids, e, n), |ids|, g) == Sum(0, n, Only(ids, e, g))
  {
    if n > 0 {
      SumOverExpert(ids, e, n - 1, g);
      var most := PerExpert(ids, e, n - 1);
      if ids[n - 1] == e {
        SumOverOne(most, n - 1, |ids|, g);
        assert PerExpert(ids, e, n) == most + [n - 1];
      } else {
        assert PerExpert(ids, e, n) == most;
      }
      hide PerExpert;
      assert Only(ids, e, g)(n - 1) == if ids[n - 1] == e then g(n - 1) else 0.0;
    }
  }

  lemma SumOverNone(n: nat, g: Vec)
    ensures SumOver([], n, g) == 0.0
  {
  }

  /** Summing over the sorted layout is summing over the valid flat indices. */
  lemma {:induction false} SumOverSorted(ids: seq<int>, experts: nat, bs: nat, g: Vec)
    requires bs > 0
    ensures SumOver(SortedIds(ids, experts, bs), |ids|, g) == Sum(0, |ids|, Below(ids, experts, g))
  {
    hide Padded, PerExpert, Below, Only, SumOver;
    if experts == 0 {
      assert SumOver([], |ids|, g) == 0.0 by { SumOverNone(|ids|, g); }
      BelowNone(ids, g);
    } else {
      var e := experts - 1;
      var mine := PerExpert(ids, e, |ids|);
      SumOverSorted(ids, e, bs, g);
      SumOverJoin(SortedIds(ids, e, bs), Chunk(ids, e, bs), |ids|, g);
      SumOverJoin(mine, seq(Padded(|mine|, bs) - |mine|, _ => |ids|), |ids|, g);
      SumOverPadding(Padded(|mine|, bs) - |mine|, |ids|, g);
      SumOverExpert(ids, e, |ids|, g);
      BelowGrows(ids, e, g);
    }
  }

  lemma {:induction false} SumOverIsSum(rows: seq<int>, n: nat, g: Vec, h: Vec)
    requires forall p :: 0 <= p < |rows| ==> h(p) == RowTerm(n, rows[p], g)
    ensures Sum(0, |rows|, h) == SumOver(rows, n, g)
  {
    if rows != [] {
      SumOverIsSum(rows[..|rows| - 1], n, g, h);
    }
  }

  // ---- moe_align_block_size ----------------------------------------------------------

  /** The per-expert lists. */
  method Group(ids: seq<int>, experts: nat) returns (lists: seq<seq<int>>)
    ensures |lists| == experts && forall e :: 0 <= e < experts ==> lists[e] == PerExpert(ids, e, |ids|)
  {
    lists := seq(experts, _ => []);
    for i := 0 to |ids|
      invariant |lists| == experts
      invariant forall e :: 0 <= e < experts ==> lists[e] == PerExpert(ids, e, i)
    {
      var e := ids[i];
      if 0 <= e < experts {
        lists := lists[e := lists[e] + [i]];
      }
    }
  }

  /** EM, by adding up the padded lengths. */
  method CountPadded(ids: seq<int>, lists: seq<seq<int>>, bs: nat) returns (em: nat)
    requires bs > 0 && forall e :: 0 <= e < |lists| ==> lists[e] == PerExpert(ids, e, |ids|)
    ensures em == |SortedIds(ids, |lists|, bs)|
  {
    hide Padded, PerExpert;
    em := 0;
    for e := 0 to |lists|
      invariant em == |SortedIds(ids, e, bs)|
    {
      em := em + Padded(|lists[e]|, bs);
    }
  }

  /** One expert's rows into the buffer. */
  method CopyRows(rows: array<int>, start: nat, tokens: seq<int>)
    requires start + |tokens| <= rows.Length
    modifies rows
    ensures rows[..start + |tokens|] == old(rows[..start]) + tokens
  {
    for t := 0 to |tokens|
      invariant rows[..start + t] == old(rows[..start]) + tokens[..t]
    {
      rows[start + t] := tokens[t];
    }
  }

  /** And the sentinel up to its block boundary. */
  method PadRows(rows: array<int>, start: nat, count: nat, sentinel: int)
    requires start + count <= rows.Length
    modifies rows
    ensures rows[..start + count] == old(rows[..start]) + seq(count, _ => sentinel)
  {
    for t := 0 to count
      invariant rows[..start + t] == old(rows[..start]) + seq(t, _ => sentinel)
    {
      rows[start + t] := sentinel;
    }
  }

  lemma ChunkParts(ids: seq<int>, e: nat, bs: nat)
    requires bs > 0
    ensures var mine := PerExpert(ids, e, |ids|);
      SortedIds(ids, e + 1, bs) == SortedIds(ids, e, bs) + mine + seq(Padded(|mine|, bs) - |mine|, _ => |ids|)
  {
    hide Padded, PerExpert;
  }

  /** The sorted_ids buffer: each expert's rows, then its padding. */
  method FillRows(ids: seq<int>, lists: seq<seq<int>>, bs: nat, rows: array<int>)
    requires bs > 0 && forall e :: 0 <= e < |lists| ==> lists[e] == PerExpert(ids, e, |ids|)
    requires rows.Length == |SortedIds(ids, |lists|, bs)|
    modifies rows
    ensures rows[..] == SortedIds(ids, |lists|, bs)
  {
    hide Padded, PerExpert, SortedIds;
    NoneYet(ids, bs);
    var idx := 0;
    for e := 0 to |lists|
      invariant idx == |SortedIds(ids, e, bs)| <= rows.Length
      invariant rows[..idx] == SortedIds(ids, e, bs)
    {
      ChunkParts(ids, e, bs);
      PrefixFits(ids, e + 1, |lists|, bs);
      var nt := |lists[e]|;
      var padded := Padded(nt, bs);
      CopyRows(rows, idx, lists[e]);
      PadRows(rows, idx + nt, padded - nt, |ids|);
      idx := idx + padded;
    }
    assert rows[..idx] == rows[..];
  }

  lemma {:induction false} PrefixFits(ids: seq<int>, e: nat, experts: nat, bs: nat)
    requires bs > 0 && e <= experts
    ensures |SortedIds(ids, e, bs)| <= |SortedIds(ids, experts, bs)|
    ensures |ExpertIds(ids, e, bs)| <= |ExpertIds(ids, experts, bs)|
    decreases experts - e
  {
    hide Chunk, Blocks, Owners, Padded;
    if e < experts { PrefixFits(ids, e + 1, experts, bs); }
  }

  /** The expert_ids buffer. The source writes -1 for a block whose first row is
      past the expert's rows; that never happens. */
  method FillExperts(ids: seq<int>, lists: seq<seq<int>>, bs: nat, experts: array<int>)
    requires bs > 0 && forall e :: 0 <= e < |lists| ==> lists[e] == PerExpert(ids, e, |ids|)
    requires experts.Length == |ExpertIds(ids, |lists|, bs)|
    modifies experts
    ensures experts[..] == ExpertIds(ids, |lists|, bs)
  {
    hide Blocks, PerExpert, FirstRow;
    var idx := 0;
    for e := 0 to |lists|
      invariant idx == |ExpertIds(ids, e, bs)| <= experts.Length
      invariant experts[..idx] == ExpertIds(ids, e, bs)
    {
      PrefixFits(ids, e + 1, |lists|, bs);
      var nt := |lists[e]|;
      ghost var start := idx;
      var paddedBlocks := Blocks(nt, bs);
      for b := 0 to paddedBlocks
        invariant idx == start + b
        invariant experts[..idx] == ExpertIds(ids, e, bs) + seq(b, _ => e)
      {
        FirstRowReal(nt, bs, b);
        experts[idx] := if FirstRow(b, bs) < nt then e else -1;
        idx := idx + 1;
      }
      assert Owners(ids, e, bs) == seq(paddedBlocks, _ => e);
    }
    assert experts[..idx] == experts[..];
  }

  /** moe_align_block_size. */
  method Align(ids: seq<int>, m: nat, topK: nat, bs: int, experts: nat)
      returns (r: Result<(seq<int>, seq<int>, nat)>)
    ensures r.BadShape? <==> |ids| != m * topK
    ensures r.BadBlock? <==> |ids| == m * topK && bs <= 0
    ensures r.Ok? ==> bs > 0 && r.value.0 == SortedIds(ids, experts, bs) && r.value.2 == |r.value.0|
    ensures r.Ok? ==> bs > 0 && r.value.1 == ExpertIds(ids, experts, bs)
  {
    if |ids| != m * topK { return BadShape; }
    if bs <= 0 { return BadBlock; }
    hide SortedIds, ExpertIds;
    var lists := Group(ids, experts);
    var em := CountPadded(ids, lists, bs);
    var rows := new int[em];
    FillRows(ids, lists, bs, rows);
    SortedLength(ids, experts, bs);
    var blocks := em / bs;
    assert blocks == |ExpertIds(ids, experts, bs)| by {
      DivUnique(em, bs, |ExpertIds(ids, experts, bs)|);
    }
    var owners := new int[blocks](_ => -1);
    FillExperts(ids, lists, bs, owners);
    r := Ok((rows[..], owners[..], em));
  }
}
