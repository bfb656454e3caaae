/** Tensor parallelism: each rank multiplies by its column shard, and the partials
    are added up before each nonlinearity. */
module MoeTp {
  import opened IntArith
  import opened MoeAlign
  import opened MoeBlocks
  import opened MoeFused
  import opened MoeGates
  import opened MoeSpec
  import opened MoeTiles
  import opened MoeStages
  import opened MoeWeights
  import opened Sums

  datatype Outcome =
    | Outs(outs: seq<array2<real>>) | WrongShape | Rejected(plan: Plan) | BadBlockSize | UnknownActivation | BlockPastEnd

  /** The first of rank r's columns. */
  function FirstColumn(k: nat, tp: nat, r: int): int
    requires tp > 0
  {
    r * (k / tp)
  }

  lemma FirstColumns(k: nat, tp: nat, r: int)
    requires tp > 0 && k % tp == 0
    ensures FirstColumn(k, tp, 0) == 0 && FirstColumn(k, tp, tp) == k
    ensures FirstColumn(k, tp, r + 1) == FirstColumn(k, tp, r) + k / tp
  {
    DivMod(k, tp);
    MulSucc(r, k / tp);
    MulCommute(tp, k / tp);
  }

  /** Rank r's shards are its columns of the whole weights. */
  lemma W13ShardColumns(x: Experts, tp: int, r: nat)
    requires x.Good() && TpPlan(x.hidden, x.ispp, tp, x.w13.group).Plan? && r < tp
    ensures FirstColumn(x.hidden, tp, r) >= 0 && x.hidden / tp >= 0
    ensures W13Columns(x, Shard(x.w13, tp, r), FirstColumn(x.hidden, tp, r), x.hidden / tp)
  {
    PlanTiles(x, tp);
    ShareOf(x.hidden, tp, r, 2);
    hide TpPlan, Shard, Splits;
    forall e, n, k | 0 <= e < x.count && 0 <= n < 2 * x.ispp && 0 <= k < x.hidden / tp
      ensures Own13(x, Shard(x.w13, tp, r), e, n, k) == x.W13At(e, n, r * (x.hidden / tp) + k)
    {
      RowFits(e, x.count, 2 * x.ispp, n);
      ShardIsColumns(x.num, x.w13, tp, r, RowStart(e, 2 * x.ispp) + n, k);
    }
  }

  lemma W2ShardColumns(x: Experts, tp: int, r: nat)
    requires x.Good() && TpPlan(x.hidden, x.ispp, tp, x.w13.group).Plan? && r < tp
    ensures FirstColumn(x.ispp, tp, r) >= 0 && x.ispp / tp >= 0
    ensures W2Columns(x, Shard(x.w2, tp, r), FirstColumn(x.ispp, tp, r), x.ispp / tp)
  {
    PlanTiles(x, tp);
    ShareOf(x.ispp, tp, r, 2);
    hide TpPlan, Shard, Splits;
    forall e, n, k | 0 <= e < x.count && 0 <= n < x.hidden && 0 <= k < x.ispp / tp
      ensures Own2(x, Shard(x.w2, tp, r), e, n, k) == x.W2At(e, n, r * (x.ispp / tp) + k)
    {
      RowFits(e, x.count, x.hidden, n);
      ShardIsColumns(x.num, x.w2, tp, r, RowStart(e, x.hidden) + n, k);
    }
  }

  lemma PlanTiles(x: Experts, tp: int)
    requires x.Good() && TpPlan(x.hidden, x.ispp, tp, x.w13.group).Plan?
    ensures tp > 0 && WholeTiles(x)
    ensures Splits(x.hidden, x.w13.group, tp) && Splits(x.ispp, x.w2.group, tp)
    ensures x.hidden % tp == 0 && x.ispp % tp == 0
  {
    Tiles(x.hidden, tp);
    Tiles(x.ispp, tp);
    EvenTile(x.hidden / tp);
    EvenTile(x.ispp / tp);
  }

  lemma Tiles(k: nat, tp: int)
    requires tp > 0 && k % tp == 0 && k / tp % TILE == 0
    ensures k % TILE == 0
  {
    DivMod(k, tp);
    DivMod(k / tp, TILE);
    MulRotates(tp, k / tp / TILE, TILE);
    DivUnique(k, TILE, tp * (k / tp / TILE));
  }

  /** Adding the next rank's partial extends the reduction by its columns. */
  lemma GateUpAdds(x: Experts, r: Routing, a: Mat, base: nat, width: nat, p: int, n: int)
    ensures GateUpPart(x, r, a, 0, base)(p, n) + GateUpPart(x, r, a, base, width)(p, n)
      == GateUpPart(x, r, a, 0, base + width)(p, n)
  {
    hide Dot, Routing.Owner, Routing.Input, Experts.W13Row;
    if r.Owner(p) >= 0 { DotSplit(0, base, base + width, r.Input(a, p), x.W13Row(r.Owner(p), n)); }
  }

  lemma DownAdds(x: Experts, r: Routing, a: Mat, base: nat, width: nat, p: int, n: int)
    ensures DownPart(x, r, a, 0, base)(p, n) + DownPart(x, r, a, base, width)(p, n)
      == DownPart(x, r, a, 0, base + width)(p, n)
  {
    hide Dot, Routing.Owner, ActInput, Experts.W2Row;
    if r.Owner(p) >= 0 { DotSplit(0, base, base + width, ActInput(x, r, a, p), x.W2Row(r.Owner(p), n)); }
  }

  lemma NothingYet(x: Experts, r: Routing, a: Mat, p: int, n: int)
    ensures GateUpPart(x, r, a, 0, 0)(p, n) == 0.0 && DownPart(x, r, a, 0, 0)(p, n) == 0.0
  {
  }

  /** total += part, element by element. */
  method AddInto(total: array2<real>, part: array2<real>)
    requires total.Length0 == part.Length0 && total.Length1 == part.Length1 && total != part
    modifies total
    ensures forall p, n :: 0 <= p < total.Length0 && 0 <= n < total.Length1 ==>
      total[p, n] == old(total[p, n]) + old(part[p, n])
  {
    forall p, n | 0 <= p < total.Length0 && 0 <= n < total.Length1 {
      total[p, n] := total[p, n] + part[p, n];
    }
  }

  /** The ranks reduced so far cover columns [0, k) of the gate/up projection, and of the down projection. */
  ghost predicate GateUpTo(x: Experts, r: Routing, a: Mat, k: int, gateUp: array2<real>)
    reads gateUp
  {
    && gateUp.Length0 == |r.rows| && gateUp.Length1 == 2 * x.ispp
    && forall p, n :: 0 <= p < gateUp.Length0 && 0 <= n < gateUp.Length1 ==> gateUp[p, n] == GateUpPart(x, r, a, 0, k)(p, n)
  }

  ghost predicate DownTo(x: Experts, r: Routing, a: Mat, k: int, partial: array2<real>)
    reads partial
  {
    && partial.Length0 == |r.rows| && partial.Length1 == x.hidden
    && forall p, n :: 0 <= p < partial.Length0 && 0 <= n < partial.Length1 ==> partial[p, n] == DownPart(x, r, a, 0, k)(p, n)
  }

  lemma NoGateUp(x: Experts, r: Routing, a: Mat, gateUp: array2<real>)
    requires gateUp.Length0 == |r.rows| && gateUp.Length1 == 2 * x.ispp
    requires forall p, n :: 0 <= p < gateUp.Length0 && 0 <= n < gateUp.Length1 ==> gateUp[p, n] == 0.0
    ensures GateUpTo(x, r, a, 0, gateUp)
  {
    forall p, n ensures GateUpPart(x, r, a, 0, 0)(p, n) == 0.0 { NothingYet(x, r, a, p, n); }
    hide GateUpPart;
  }

  lemma NoDown(x: Experts, r: Routing, a: Mat, partial: array2<real>)
    requires partial.Length0 == |r.rows| && partial.Length1 == x.hidden
    requires forall p, n :: 0 <= p < partial.Length0 && 0 <= n < partial.Length1 ==> partial[p, n] == 0.0
    ensures DownTo(x, r, a, 0, partial)
  {
    forall p, n ensures DownPart(x, r, a, 0, 0)(p, n) == 0.0 { NothingYet(x, r, a, p, n); }
    hide DownPart;
  }

  lemma AllGateUp(x: Experts, r: Routing, a: Mat, gateUp: array2<real>)
    requires GateUpTo(x, r, a, x.hidden, gateUp)
    ensures GateUpReady(x, r, a, gateUp)
  {
    hide Dot;
  }

  lemma AllDown(x: Experts, r: Routing, a: Mat, partial: array2<real>)
    requires DownTo(x, r, a, x.ispp, partial)
    ensures PartialReady(x, r, a, partial)
  {
    hide Dot;
  }

  /** One rank's gate/up partial, added to those before it. */
  method AddGateUp(x: Experts, r: Routing, m: nat, a: Mat, w: Packed, base: nat, width: nat, gateUp: array2<real>)
    requires WholeTiles(x) && r.Good(x.count, m) && W13Columns(x, w, base, width)
    requires GateUpTo(x, r, a, base, gateUp)
    modifies gateUp
    ensures GateUpTo(x, r, a, base + width, gateUp)
  {
    hide GateUpPart, W13Columns, WholeTiles;
    var part := new real[|r.rows|, 2 * x.ispp]((_, _) => 0.0);
    GateUp(x, r, m, a, w, base, width, part);
    AddInto(gateUp, part);
    forall p, n | 0 <= p < gateUp.Length0 && 0 <= n < gateUp.Length1
      ensures GateUpPart(x, r, a, 0, base)(p, n) + GateUpPart(x, r, a, base, width)(p, n)
        == GateUpPart(x, r, a, 0, base + width)(p, n)
    {
      GateUpAdds(x, r, a, base, width, p, n);
    }
  }

  method RankGateUp(x: Experts, r: Routing, m: nat, a: Mat, tp: nat, rank: nat, gateUp: array2<real>)
    requires x.Good() && r.Good(x.count, m) && TpPlan(x.hidden, x.ispp, tp, x.w13.group).Plan? && rank < tp
    requires GateUpTo(x, r, a, FirstColumn(x.hidden, tp, rank), gateUp)
    modifies gateUp
    ensures GateUpTo(x, r, a, FirstColumn(x.hidden, tp, rank + 1), gateUp)
  {
    PlanTiles(x, tp);
    W13ShardColumns(x, tp, rank);
    FirstColumns(x.hidden, tp, rank);
    hide TpPlan, Splits, W13Columns, Shard, WholeTiles, FirstColumn, GateUpTo;
    AddGateUp(x, r, m, a, Shard(x.w13, tp, rank), FirstColumn(x.hidden, tp, rank), x.hidden / tp, gateUp);
  }

  /** Every rank's gate/up partial, summed: the whole projection. */
  method ReduceGateUp(x: Experts, r: Routing, m: nat, a: Mat, tp: nat) returns (gateUp: array2<real>)
    requires x.Good() && r.Good(x.count, m) && TpPlan(x.hidden, x.ispp, tp, x.w13.group).Plan?
    ensures fresh(gateUp) && GateUpReady(x, r, a, gateUp)
  {
    PlanTiles(x, tp);
    FirstColumns(x.hidden, tp, 0);
    hide TpPlan, Splits, WholeTiles, FirstColumn, GateUpTo, GateUpReady;
    gateUp := new real[|r.rows|, 2 * x.ispp]((_, _) => 0.0);
    NoGateUp(x, r, a, gateUp);
    for rank := 0 to tp
      invariant GateUpTo(x, r, a, FirstColumn(x.hidden, tp, rank), gateUp)
    {
      RankGateUp(x, r, m, a, tp, rank, gateUp);
    }
    AllGateUp(x, r, a, gateUp);
  }

  /** One rank's down partial, added to those before it. */
  method AddDown(x: Experts, r: Routing, m: nat, ghost a: Mat, w: Packed, base: nat, width: nat,
                 act: array2<real>, partial: array2<real>)
    requires WholeTiles(x) && r.Good(x.count, m) && W2Columns(x, w, base, width) && ActFull(x, r, a, act) && act != partial
    requires DownTo(x, r, a, base, partial)
    modifies partial
    ensures DownTo(x, r, a, base + width, partial)
  {
    hide DownPart, W2Columns, WholeTiles, ActFull;
    var part := new real[|r.rows|, x.hidden]((_, _) => 0.0);
    Down(x, r, m, a, w, base, width, act, part);
    AddInto(partial, part);
    forall p, n | 0 <= p < partial.Length0 && 0 <= n < partial.Length1
      ensures DownPart(x, r, a, 0, base)(p, n) + DownPart(x, r, a, base, width)(p, n)
        == DownPart(x, r, a, 0, base + width)(p, n)
    {
      DownAdds(x, r, a, base, width, p, n);
    }
  }

  method RankDown(x: Experts, r: Routing, m: nat, ghost a: Mat, tp: nat, rank: nat, act: array2<real>, partial: array2<real>)
    requires x.Good() && r.Good(x.count, m) && TpPlan(x.hidden, x.ispp, tp, x.w13.group).Plan? && rank < tp
    requires ActFull(x, r, a, act) && act != partial
    requires DownTo(x, r, a, FirstColumn(x.ispp, tp, rank), partial)
    modifies partial
    ensures DownTo(x, r, a, FirstColumn(x.ispp, tp, rank + 1), partial)
  {
    PlanTiles(x, tp);
    W2ShardColumns(x, tp, rank);
    FirstColumns(x.ispp, tp, rank);
    hide TpPlan, Splits, ActFull, W2Columns, Shard, WholeTiles, FirstColumn, DownTo;
    AddDown(x, r, m, a, Shard(x.w2, tp, rank), FirstColumn(x.ispp, tp, rank), x.ispp / tp, act, partial);
  }

  /** Every rank's down partial, summed: the whole projection. */
  method ReduceDown(x: Experts, r: Routing, m: nat, ghost a: Mat, tp: nat, act: array2<real>) returns (partial: array2<real>)
    requires x.Good() && r.Good(x.count, m) && TpPlan(x.hidden, x.ispp, tp, x.w13.group).Plan? && ActFull(x, r, a, act)
    ensures fresh(partial) && PartialReady(x, r, a, partial)
  {
    PlanTiles(x, tp);
    FirstColumns(x.ispp, tp, 0);
    hide TpPlan, Splits, WholeTiles, FirstColumn, ActFull, DownTo, PartialReady;
    partial := new real[|r.rows|, x.hidden]((_, _) => 0.0);
    NoDown(x, r, a, partial);
    for rank := 0 to tp
      invariant ActFull(x, r, a, act)
      invariant DownTo(x, r, a, FirstColumn(x.ispp, tp, rank), partial)
    {
      RankDown(x, r, m, a, tp, rank, act, partial);
    }
    AllDown(x, r, a, partial);
  }

  /** The stages on a walk of the layout: both reductions, then the combine. */
  method Forward(x: Experts, r: Routing, m: nat, a: Mat, tp: nat) returns (out: array2<real>)
    requires x.Good() && r.Good(x.count, m) && TpPlan(x.hidden, x.ispp, tp, x.w13.group).Plan?
    ensures fresh(out) && out.Length0 == m && out.Length1 == x.hidden
    ensures forall t, c :: 0 <= t < m && 0 <= c < x.hidden ==> out[t, c] == Combined(x, r, a, t, c)
  {
    hide TpPlan, Combined, GateUpReady, ActFull, PartialReady;
    PlanTiles(x, tp);
    var gateUp := ReduceGateUp(x, r, m, a, tp);
    var act := new real[|r.rows|, x.ispp];
    ActEpilogue(x, r, m, a, gateUp, act);
    assert ActFull(x, r, a, act) by { FullAct(x, r, a, act); }
    var partial := ReduceDown(x, r, m, a, tp, act);
    out := new real[m, x.hidden]((_, _) => 0.0);
    Combine(x, r, m, a, partial, out);
  }

  /** out holds what the stages compute from the layout at block size bs. */
  ghost predicate Walked(x: Experts, ids: seq<int>, w: Vec, topK: nat, m: nat, a: Mat, bs: nat, out: array2<real>)
    requires bs > 0
    reads out
  {
    && out.Length0 == m && out.Length1 == x.hidden
    && forall t, c :: 0 <= t < m && 0 <= c < x.hidden ==>
      out[t, c] == Combined(x, StageRows(ids, x.count, w, topK, bs), a, t, c)
  }

  lemma IsWalked(x: Experts, ids: seq<int>, w: Vec, topK: nat, m: nat, a: Mat, bs: nat, out: array2<real>)
    requires bs > 0 && out.Length0 == m && out.Length1 == x.hidden
    requires forall t, c :: 0 <= t < m && 0 <= c < x.hidden ==>
      out[t, c] == Combined(x, StageRows(ids, x.count, w, topK, bs), a, t, c)
    ensures Walked(x, ids, w, topK, m, a, bs, out)
  {
  }

  lemma SixteenWalked(x: Experts, ids: seq<int>, w: Vec, topK: nat, m: nat, a: Mat, out: array2<real>)
    requires |ids| == RowStart(m, topK) && Walked(x, ids, w, topK, m, a, BLOCK_M, out)
    ensures RoutedOutput(x, ids, w, topK, m, a, out)
  {
    hide Combined, RoutedOutput, StageRows;
    SixteenRows(ids, x.count, w, topK);
    RoutedFromCombined(x, ids, w, topK, m, a, out);
  }

  /** The routing table's shape and the plan pass. */
  ghost predicate Planned(x: Experts, columns: nat, topK: nat, tp: int)
    requires x.Good()
  {
    columns == topK && TpPlan(x.hidden, x.ispp, tp, x.w13.group).Plan?
  }

  /** dist_moe_tp, on an m x columns routing table. For every tp the plan accepts, and at
      the default block size, each rank's output is the routed sum of the layer as
      dist.py computes it (StageView). The fused kernel adds the same to zeroed output on
      every layer and input exactly for the group sizes and scale bytes of
      MoeAgreement.AgreeIff. At other block sizes the stages still walk 16 rows at a time
      (MoeBlocks). */
  method DistMoeTp(x: Experts, ids: seq<int>, columns: nat, w: Vec, topK: nat, m: nat, a: Mat, tp: int, gates: Epilogue,
                   activation: string, blockSize: int)
      returns (res: Outcome)
    requires x.Good() && |ids| == RowStart(m, columns)
    ensures res.WrongShape? <==> columns != topK
    ensures res.Rejected? <==> columns == topK && !TpPlan(x.hidden, x.ispp, tp, x.w13.group).Plan?
    ensures res.Rejected? ==> res.plan == TpPlan(x.hidden, x.ispp, tp, x.w13.group)
    ensures res.BadBlockSize? <==> Planned(x, columns, topK, tp) && blockSize <= 0
    ensures res.UnknownActivation? <==> Planned(x, columns, topK, tp) && blockSize > 0 && !KnownActivation(activation)
    ensures res.Outs? <==>
      Planned(x, columns, topK, tp) && blockSize > 0 && KnownActivation(activation) && Covered(ids, x.count, blockSize)
    ensures res.Outs? ==> |res.outs| == tp
    ensures res.Outs? ==> forall rank :: 0 <= rank < |res.outs| ==>
      Walked(StageView(x, gates, activation), ids, w, topK, m, a, blockSize, res.outs[rank])
    ensures blockSize == BLOCK_M && Planned(x, columns, topK, tp) && KnownActivation(activation) ==> res.Outs?
    ensures blockSize == BLOCK_M && res.Outs? ==> forall rank :: 0 <= rank < |res.outs| ==>
      RoutedOutput(StageView(x, gates, activation), ids, w, topK, m, a, res.outs[rank])
  {
    if columns != topK { return WrongShape; }
    var plan := TpPlan(x.hidden, x.ispp, tp, x.w13.group);
    if !plan.Plan? { return Rejected(plan); }
    var y := StageView(x, gates, activation);
    assert y.Good() && tp > 0 by { PlanTiles(x, tp); }
    hide TpPlan, StageView, Combined, Walked, RoutedOutput, StageRows, Covered, KnownActivation;
    var walk := StageLayout(ids, y.count, w, topK, m, blockSize);
    if walk.BadBlockSize? { return Outcome.BadBlockSize; }
    if !KnownActivation(activation) { return UnknownActivation; }
    if walk.BlockPastEnd? {
      if blockSize == BLOCK_M { SixteenRows(ids, y.count, w, topK); }
      return Outcome.BlockPastEnd;
    }
    var out := Forward(y, walk.routing, m, a, tp);
    assert Walked(y, ids, w, topK, m, a, blockSize, out) by { IsWalked(y, ids, w, topK, m, a, blockSize, out); }
    if blockSize == BLOCK_M { SixteenWalked(y, ids, w, topK, m, a, out); }
    res := Outs(seq(tp, _ => out));
  }

  lemma FullAct(x: Experts, r: Routing, a: Mat, act: array2<real>)
    requires act.Length0 == |r.rows| && act.Length1 == x.ispp
    requires forall p, n :: 0 <= p < act.Length0 && 0 <= n < act.Length1 && r.Real(p) ==> act[p, n] == ActAt(x, r, a, p, n)
    ensures ActFull(x, r, a, act)
  {
  }
}
