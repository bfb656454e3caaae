/** The routed combine, from exact rows and from quantised rows, and the bound on the
    difference. */
module MxfpCombine {
  import opened Formats
  import opened IntArith
  import opened MxfpQuant
  import opened RealArith
  import opened Sums

  /** The routing of the sorted rows: flat indices, weights, m tokens of topK. */
  datatype Rows = Rows(ids: seq<int>, w: seq<real>, m: nat, topK: nat)
  {
    ghost predicate Good() { |ids| == |w| }

    /** Row r belongs to a real (token, selection). */
    predicate Kept(r: int) { 0 <= r < |ids| && 0 <= ids[r] < m * topK }

    function Token(r: int): int
      requires 0 <= r < |ids|
    {
      if topK == 0 then 0 else ids[r] / topK
    }
  }

  lemma TokenBelow(rows: Rows, r: int)
    requires rows.Kept(r)
    ensures rows.topK > 0 && 0 <= rows.Token(r) < rows.m
  {
    var f, k := rows.ids[r], rows.topK;
    DivMod(f, k);
    if f / k >= rows.m { MulMono(rows.m, f / k, k); }
    if f / k < 0 { MulMono(f / k, -1, k); }
  }

  /** Row r is one of token t's selections. */
  predicate RowOf(rows: Rows, r: int, t: int) {
    0 <= r < |rows.ids| && 0 <= t < rows.m && t * rows.topK <= rows.ids[r] < t * rows.topK + rows.topK
  }

  /** Flat index f is token f / topK's, if any token's. */
  lemma RowOfToken(rows: Rows, r: int, t: int)
    ensures RowOf(rows, r, t) <==> rows.Kept(r) && rows.Token(r) == t
  {
    if 0 <= r < |rows.ids| {
      var f, k := rows.ids[r], rows.topK;
      if rows.Kept(r) {
        TokenBelow(rows, r);
        DivMod(f, k);
      }
      if RowOf(rows, r, t) {
        DivUnique(f, k, t);
        BlockFits(t, rows.m, k);
        MulMono(0, t, k);
      }
    }
  }

  /** What row r adds to out[t][c], its value at c being value(r, c). */
  function Term(rows: Rows, value: Mat, t: int, c: int): Vec {
    r => if |rows.w| == |rows.ids| && RowOf(rows, r, t) then rows.w[r] * value(r, c) else 0.0
  }

  function Reduced(rows: Rows, value: Mat, t: int, c: int): real { Sum(0, |rows.ids|, Term(rows, value, t, c)) }

  function Exact(partial: seq<seq<real>>): Mat {
    (r: int, c: int) => if 0 <= r < |partial| && 0 <= c < |partial[r]| then partial[r][c] else 0.0
  }

  function Read(q: seq<QuantRow>, group: nat): Mat {
    (r: int, c: int) => if 0 <= r < |q| then q[r].Value(group, c) else 0.0
  }

  lemma TermStep(rows: Rows, value: Mat, t: int, c: int, r: nat)
    requires rows.Good() && r < |rows.ids|
    ensures Sum(0, r + 1, Term(rows, value, t, c)) == Sum(0, r, Term(rows, value, t, c))
      + if rows.Kept(r) && rows.Token(r) == t then Times(value(r, c), rows.w[r]) else 0.0
  {
    RowOfToken(rows, r, t);
    hide RowOf;
  }

  /** out[t][c] after the first r rows. */
  function SoFar(rows: Rows, value: Mat, r: int, t: int, c: int): real { Sum(0, r, Term(rows, value, t, c)) }

  lemma SoFarStep(rows: Rows, value: Mat, r: nat, t: int, c: int)
    requires rows.Good() && r < |rows.ids|
    ensures SoFar(rows, value, 0, t, c) == 0.0
    ensures SoFar(rows, value, r + 1, t, c) == SoFar(rows, value, r, t, c)
      + if rows.Kept(r) && rows.Token(r) == t then Times(value(r, c), rows.w[r]) else 0.0
  {
    TermStep(rows, value, t, c, r);
  }

  /** mxfp4_moe_scatter_reduce. */
  method ScatterReduce(rows: Rows, partial: seq<seq<real>>, width: nat) returns (out: array2<real>)
    requires rows.Good() && |partial| == |rows.ids| && forall r :: 0 <= r < |partial| ==> |partial[r]| == width
    ensures fresh(out) && out.Length0 == rows.m && out.Length1 == width
    ensures forall t, c :: 0 <= t < rows.m && 0 <= c < width ==> out[t, c] == Reduced(rows, Exact(partial), t, c)
  {
    hide SoFar;
    out := new real[rows.m, width]((_, _) => 0.0);
    ghost var value := Exact(partial);
    forall t, c ensures SoFar(rows, value, 0, t, c) == 0.0 { NoneSoFar(rows, value, t, c); }
    for r := 0 to |rows.ids|
      invariant forall t, c :: 0 <= t < rows.m && 0 <= c < width ==> out[t, c] == SoFar(rows, value, r, t, c)
    {
      forall t, c { SoFarStep(rows, value, r, t, c); }
      if 0 <= rows.ids[r] < rows.m * rows.topK {
        TokenBelow(rows, r);
        var token := rows.ids[r] / rows.topK;
        forall c | 0 <= c < width {
          out[token, c] := out[token, c] + Times(partial[r][c], rows.w[r]);
        }
      }
    }
    forall t, c ensures SoFar(rows, value, |rows.ids|, t, c) == Reduced(rows, value, t, c) { AllSoFar(rows, value, t, c); }
  }

  lemma NoneSoFar(rows: Rows, value: Mat, t: int, c: int)
    ensures SoFar(rows, value, 0, t, c) == 0.0
  {
  }

  lemma AllSoFar(rows: Rows, value: Mat, t: int, c: int)
    ensures SoFar(rows, value, |rows.ids|, t, c) == Reduced(rows, value, t, c)
  {
  }

  /** One kept row of the quantised combine: group by group, two columns a byte. */
  method AddQuantRow(q: QuantRow, w: real, token: nat, width: nat, group: nat, out: array2<real>)
    requires Shape(width, group) && |q.bytes| == width / 2 && |q.scales| == width / group
    requires token < out.Length0 && out.Length1 == width
    modifies out
    ensures forall t, c :: 0 <= t < out.Length0 && 0 <= c < width ==>
      out[t, c] == old(out[t, c]) + if t == token then Times(q.Value(group, c), w) else 0.0
  {
    var groups := width / group;
    DivMod(width, group);
    for g := 0 to groups
      invariant forall t, c :: 0 <= t < out.Length0 && 0 <= c < width ==>
        out[t, c] == old(out[t, c]) + if t == token && c < g * group then Times(q.Value(group, c), w) else 0.0
    {
      MulSucc(g, group);
      MulMono(g + 1, groups, group);
      MulMono(0, g, group);
      AddGroup(q, w, token, width, group, g, out);
    }
  }

  /** One group's columns, two at a time. */
  method AddGroup(q: QuantRow, w: real, token: nat, width: nat, group: nat, g: nat, out: array2<real>)
    requires Shape(width, group) && |q.bytes| == width / 2 && |q.scales| == width / group
    requires token < out.Length0 && out.Length1 == width
    requires g < width / group && 0 <= g * group && g * group + group <= width
    modifies out
    ensures forall t, c :: 0 <= t < out.Length0 && 0 <= c < width ==>
      out[t, c] == old(out[t, c])
        + if t == token && g * group <= c < g * group + group then Times(q.Value(group, c), w) else 0.0
  {
    hide Times, Fp4, Ue8m0, QuantRow.Value;
    var base, sc := g * group, Ue8m0(q.scales[g]);
    var i := 0;
    while i < group
      invariant 0 <= i <= group && i % 2 == 0
      invariant forall t, c :: 0 <= t < out.Length0 && 0 <= c < width ==>
        out[t, c] == old(out[t, c]) + if t == token && base <= c < base + i then Times(q.Value(group, c), w) else 0.0
    {
      ByteColumns(q, width, group, g, i);
      assert group % 2 == 0;
      var byte := q.bytes[base / 2 + i / 2];
      var lo, hi := Times(Fp4(byte % 16), sc), Times(Fp4(byte / 16 % 16), sc);
      out[token, base + i] := out[token, base + i] + Times(lo, w);
      out[token, base + i + 1] := out[token, base + i + 1] + Times(hi, w);
      i := i + 2;
    }
  }

  lemma ByteColumns(q: QuantRow, width: nat, group: nat, g: nat, i: nat)
    requires Shape(width, group) && |q.bytes| == width / 2 && |q.scales| == width / group
    requires g < width / group && i < group && i % 2 == 0 && 0 <= g * group && g * group + group <= width
    ensures var j := g * group / 2 + i / 2;
      && 0 <= j < |q.bytes| && i + 1 < group
      && q.Value(group, g * group + i) == Times(Fp4(q.bytes[j] % 16), Ue8m0(q.scales[g]))
      && q.Value(group, g * group + i + 1) == Times(Fp4(q.bytes[j] / 16 % 16), Ue8m0(q.scales[g]))
  {
    var base := g * group;
    EvenMultiple(g, group);
    DivUnique(base + i, group, g);
    DivUnique(base + i + 1, group, g);
    GroupOf(base + i, width, group);
    assert (base + i) / 2 == base / 2 + i / 2 == (base + i + 1) / 2;
    hide Times, Fp4, Ue8m0, Shape;
  }

  lemma EvenMultiple(g: nat, group: nat)
    requires group % 2 == 0
    ensures g * group % 2 == 0
  {
    DivMod(group, 2);
    MulRotates(g, group / 2, 2);
    DivUnique(g * group, 2, g * (group / 2));
  }

  /** mxfp4_moe_scatter_reduce_q. */
  method ScatterReduceQ(rows: Rows, q: seq<QuantRow>, width: nat, group: nat) returns (out: array2<real>)
    requires rows.Good() && |q| == |rows.ids| && Shape(width, group)
    requires forall r :: 0 <= r < |q| ==> |q[r].bytes| == width / 2 && |q[r].scales| == width / group
    ensures fresh(out) && out.Length0 == rows.m && out.Length1 == width
    ensures forall t, c :: 0 <= t < rows.m && 0 <= c < width ==> out[t, c] == Reduced(rows, Read(q, group), t, c)
  {
    hide SoFar, Shape;
    out := new real[rows.m, width]((_, _) => 0.0);
    ghost var value := Read(q, group);
    forall t, c ensures SoFar(rows, value, 0, t, c) == 0.0 { NoneSoFar(rows, value, t, c); }
    for r := 0 to |rows.ids|
      invariant forall t, c :: 0 <= t < rows.m && 0 <= c < width ==> out[t, c] == SoFar(rows, value, r, t, c)
    {
      forall t, c { SoFarStep(rows, value, r, t, c); }
      if 0 <= rows.ids[r] < rows.m * rows.topK {
        TokenBelow(rows, r);
        AddQuantRow(q[r], rows.w[r], rows.ids[r] / rows.topK, width, group, out);
      }
    }
    forall t, c ensures SoFar(rows, value, |rows.ids|, t, c) == Reduced(rows, value, t, c) { AllSoFar(rows, value, t, c); }
  }

  // ---- The bound -------------------------------------------------------------------------

  /** e(r) times the size of the weight, for each row of token t. */
  function Slack(rows: Rows, e: Vec, t: int): Vec {
    r => if |rows.w| == |rows.ids| && RowOf(rows, r, t) then Times(e(r), Abs(rows.w[r])) else 0.0
  }

  lemma WeightedError(a: real, b: real, e: real, w: real)
    requires Abs(a - b) <= e
    ensures Abs(Times(a, w) - Times(b, w)) <= Times(e, Abs(w))
  {
    TimesDiff(a, b, w);
    if w >= 0.0 {
      TimesBounds(a - b, e, w);
    } else {
      TimesBounds(a - b, e, -w);
      assert Times(a - b, -w) == -Times(a - b, w);
    }
    hide Times;
  }

  lemma {:induction false} ErrorsAdd(f: Vec, g: Vec, slack: Vec, n: nat)
    requires forall r :: 0 <= r < n ==> Abs(f(r) - g(r)) <= slack(r)
    ensures Abs(Sum(0, n, f) - Sum(0, n, g)) <= Sum(0, n, slack)
  {
    if n > 0 { ErrorsAdd(f, g, slack, n - 1); }
  }

  lemma TermError(rows: Rows, u: Mat, v: Mat, e: Vec, t: int, c: int, r: int)
    requires rows.Good() && (RowOf(rows, r, t) ==> Abs(u(r, c) - v(r, c)) <= e(r))
    ensures Abs(Term(rows, u, t, c)(r) - Term(rows, v, t, c)(r)) <= Slack(rows, e, t)(r)
  {
    if RowOf(rows, r, t) {
      WeightedError(u(r, c), v(r, c), e(r), rows.w[r]);
      assert Times(u(r, c), rows.w[r]) == Term(rows, u, t, c)(r) && Times(v(r, c), rows.w[r]) == Term(rows, v, t, c)(r);
    }
  }

  /** If the rows of token t are off by at most e, the output is by their weighted sum. */
  lemma ReducedError(rows: Rows, u: Mat, v: Mat, e: Vec, t: int, c: int)
    requires rows.Good() && forall r :: RowOf(rows, r, t) ==> Abs(u(r, c) - v(r, c)) <= e(r)
    ensures Abs(Reduced(rows, u, t, c) - Reduced(rows, v, t, c)) <= Sum(0, |rows.ids|, Slack(rows, e, t))
  {
    hide Term, Slack, RowOf;
    forall r | 0 <= r < |rows.ids|
      ensures Abs(Term(rows, u, t, c)(r) - Term(rows, v, t, c)(r)) <= Slack(rows, e, t)(r)
    {
      TermError(rows, u, v, e, t, c, r);
    }
    ErrorsAdd(Term(rows, u, t, c), Term(rows, v, t, c), Slack(rows, e, t), |rows.ids|);
  }

  ghost predicate FiniteRows(partial: seq<seq<real>>, n: nat, width: nat) {
    && |partial| == n && (forall r :: 0 <= r < n ==> |partial[r]| == width)
    && forall r, k :: 0 <= r < n && 0 <= k < width ==> FiniteBf16(partial[r][k])
  }

  function QuantRows(log: real -> int, partial: seq<seq<real>>, width: nat, group: nat): (q: seq<QuantRow>)
    requires Shape(width, group) && forall r :: 0 <= r < |partial| ==> |partial[r]| == width
    ensures |q| == |partial| && forall r :: 0 <= r < |q| ==> q[r] == Quant(log, partial[r], group)
  {
    seq(|partial|, r requires 0 <= r < |partial| => Quant(log, partial[r], group))
  }

  /** Quantising the partials of a combine moves each output by at most the sum, over
      the token's rows, of |w_r| times half the row's group scale. */
  lemma CombineError(log: real -> int, rows: Rows, partial: seq<seq<real>>, width: nat, group: nat, t: int, c: nat)
    requires CeilLog2(log) && rows.Good() && Shape(width, group) && c < width && FiniteRows(partial, |rows.ids|, width)
    ensures var q := QuantRows(log, partial, width, group);
      Abs(Reduced(rows, Read(q, group), t, c) - Reduced(rows, Exact(partial), t, c))
        <= Sum(0, |rows.ids|, Slack(rows, HalfScales(q, group, c), t))
  {
    var q := QuantRows(log, partial, width, group);
    hide Quant, Shape, FiniteBf16, Reduced, Slack, Times;
    forall r | RowOf(rows, r, t) ensures Abs(Read(q, group)(r, c) - Exact(partial)(r, c)) <= HalfScales(q, group, c)(r) {
      RowError(log, partial[r], group, c);
    }
    ReducedError(rows, Read(q, group), Exact(partial), HalfScales(q, group, c), t, c);
  }

  function HalfScales(q: seq<QuantRow>, group: nat, c: int): Vec {
    r => if 0 <= r < |q| then Times(0.5, q[r].Scale(group, c)) else 0.0
  }

  /** The same in the data only: e(r) is any number that is at least 2^-127 and a third
      of every element in c's group of row r. */
  lemma CombineErrorByData(log: real -> int, rows: Rows, partial: seq<seq<real>>, width: nat, group: nat, t: int, c: nat, e: Vec)
    requires CeilLog2(log) && rows.Good() && Shape(width, group) && c < width && FiniteRows(partial, |rows.ids|, width)
    requires forall r :: 0 <= r < |partial| ==> e(r) >= Pow2(-127)
    requires forall r, d :: 0 <= r < |partial| && 0 <= d < width && SameGroup(c, d, group) ==> e(r) >= Abs(partial[r][d]) / 3.0
    ensures var q := QuantRows(log, partial, width, group);
      Abs(Reduced(rows, Read(q, group), t, c) - Reduced(rows, Exact(partial), t, c)) <= Sum(0, |rows.ids|, Slack(rows, e, t))
  {
    var q := QuantRows(log, partial, width, group);
    hide Quant, Shape, FiniteBf16, Reduced, Slack, Pow2, SameGroup;
    forall r | RowOf(rows, r, t) ensures Abs(Read(q, group)(r, c) - Exact(partial)(r, c)) <= e(r) {
      ErrorByData(log, partial[r], group, c);
    }
    ReducedError(rows, Read(q, group), Exact(partial), e, t, c);
  }
}
