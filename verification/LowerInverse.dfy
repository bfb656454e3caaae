/** The in-place inversions of I - M used by the chunked delta rule: the row
    recurrence, and the base-block substitution with doubling merges. */
module LowerInverse {
  import opened IntArith
  import opened RealArith
  import opened Sums
  import opened UnitLower

  /** The buffer a stores the matrix m. */
  ghost predicate Holds(a: array2<real>, m: Mat)
    reads a
  {
    forall i, j :: 0 <= i < a.Length0 && 0 <= j < a.Length1 ==> a[i, j] == m(i, j)
  }

  /** (I - M)^-1 without its unit diagonal. */
  ghost function Strict(m: Mat): Mat { (i, j) => Inv(m, i, j) - Delta(i, j) }

  /** The row recurrence: row i of the result is M_i + M_i N, N the rows above. */
  lemma StrictUnfold(m: Mat, i: int, c: int)
    requires 0 <= c && 0 <= i
    ensures c < i ==> Strict(m)(i, c) == m(i, c) + Dot(0, i, Row(m, i), Col(Strict(m), c))
    ensures i <= c ==> Strict(m)(i, c) == 0.0
  {
    InvUnfold(m, 0, i, c);
    if c < i {
      var f, t, n, d := Row(m, i), Col(InvMat(m), c), Col(Strict(m), c), Row(Delta, c);
      DotAdd(0, i, n, d, t, f);
      DotComm(0, i, t, f);
      DotComm(0, i, n, f);
      DotDelta(0, i, c, f);
    }
  }

  /** Rows above i already hold N; row i and below still hold M. */
  ghost predicate Advanced(attn: array2<real>, m: Mat, i: int)
    reads attn
  {
    forall a, c :: 0 <= a < attn.Length0 && 0 <= c < attn.Length1 ==>
      attn[a, c] == if a < i then Strict(m)(a, c) else m(a, c)
  }

  /** (row * sub[:, c]).sum(), over the finished rows. */
  method RowTimesColumn(attn: array2<real>, row: seq<real>, c: nat, ghost m: Mat) returns (s: real)
    requires |row| < attn.Length0 && c < attn.Length1
    requires forall l :: 0 <= l < |row| ==> row[l] == m(|row|, l)
    requires forall l :: 0 <= l < |row| ==> attn[l, c] == Strict(m)(l, c)
    ensures s == Dot(0, |row|, Row(m, |row|), Col(Strict(m), c))
  {
    s := 0.0;
    for j := 0 to |row|
      invariant s == Dot(0, j, Row(m, |row|), Col(Strict(m), c))
    {
      s := s + row[j] * attn[j, c];
    }
  }

  /** attn[i, :i] = row + (row * sub).sum(-2). */
  method UpdateRow(attn: array2<real>, i: nat, ghost m: Mat)
    requires i < attn.Length0 == attn.Length1
    requires StrictlyLower(m, 0, attn.Length0)
    requires Advanced(attn, m, i)
    modifies attn
    ensures Advanced(attn, m, i + 1)
  {
    var row := seq(i, j requires 0 <= j < i reads attn => attn[i, j]);
    for c := 0 to i
      invariant forall a, l :: 0 <= a < attn.Length0 && 0 <= l < attn.Length1 ==>
        attn[a, l] == if a < i || (a == i && l < c) then Strict(m)(a, l) else m(a, l)
    {
      var s := RowTimesColumn(attn, row, c, m);
      StrictUnfold(m, i, c);
      attn[i, c] := row[c] + s;
    }
    forall c | i <= c < attn.Length1 ensures attn[i, c] == Strict(m)(i, c) {
      StrictUnfold(m, i, c);
    }
  }

  /** The row recurrence, for i = 1, 2, ... in place. */
  method RowRecurrence(attn: array2<real>, ghost m: Mat)
    requires attn.Length0 == attn.Length1
    requires Holds(attn, m)
    requires StrictlyLower(m, 0, attn.Length0)
    modifies attn
    ensures Holds(attn, Strict(m))
  {
    var n := attn.Length0;
    if n == 0 { return; }
    forall c | 0 <= c < n ensures attn[0, c] == Strict(m)(0, c) {
      StrictUnfold(m, 0, c);
    }
    for i := 1 to n
      invariant Advanced(attn, m, i)
    {
      UpdateRow(attn, i, m);
    }
  }

  /** attn + eye. */
  method AddEye(attn: array2<real>, ghost m: Mat)
    requires attn.Length0 == attn.Length1
    requires Holds(attn, Strict(m))
    modifies attn
    ensures Holds(attn, InvMat(m))
  {
    var n := attn.Length0;
    for i := 0 to n
      invariant forall a, c :: 0 <= a < n && 0 <= c < n ==>
        attn[a, c] == if a < i then Inv(m, a, c) else Strict(m)(a, c)
    {
      attn[i, i] := attn[i, i] + 1.0;
    }
  }

  // ---- Blockwise form: base blocks, then doubling merges -------------------

  /** The diagonal block of m that starts at lo, as a matrix of its own. */
  ghost function Shift(m: Mat, lo: int): Mat { (i, j) => m(lo + i, lo + j) }

  lemma {:induction false} InvShift(m: Mat, lo: int, i: int, j: int)
    requires 0 <= i && 0 <= j
    ensures Inv(Shift(m, lo), i, j) == Inv(m, lo + i, lo + j)
    decreases i
  {
    if j < i {
      InvTailShift(m, lo, i, j, i);
    }
  }

  lemma {:induction false} InvTailShift(m: Mat, lo: int, i: int, j: int, h: int)
    requires 0 <= j <= h <= i
    ensures InvTail(Shift(m, lo), i, j, h) == InvTail(m, lo + i, lo + j, lo + h)
    decreases i, h
  {
    if h > j {
      InvTailShift(m, lo, i, j, h - 1);
      InvShift(m, lo, h - 1, j);
      assert Shift(m, lo)(i, h - 1) == m(lo + i, lo + h - 1);
    }
  }

  /** The product A22 @ M21. */
  ghost function LeftProduct(m: Mat, mid: int, hi: int): Mat {
    (i, c) => Dot(mid, hi, Row(InvMat(m), i), Col(m, c))
  }

  /** The block identity T21 = A22 @ M21 @ A11. */
  lemma MergeIdentity(m: Mat, lo: int, mid: int, hi: int, i: int, j: int)
    requires lo <= j < mid <= i < hi
    ensures Inv(m, i, j) == Dot(lo, mid, Row(LeftProduct(m, mid, hi), i), Col(InvMat(m), j))
  {
    var t := InvMat(m);
    var x := Col(t, j);
    var r := MatVec(m, lo, mid, x);
    forall a | mid <= a < hi ensures RowSolved(m, mid, r, x, a) {
      InvUnfold(m, lo, a, j);
      DotSplit(lo, mid, a, Row(m, a), x);
    }
    Solve(m, mid, hi, r, x, i);
    DotAssoc(Row(t, i), mid, hi, m, lo, mid, x);
    DotCongr(lo, mid, VecMat(Row(t, i), mid, hi, m), x, Row(LeftProduct(m, mid, hi), i), x);
  }

  /** i and j lie in the same diagonal block of the given size. */
  predicate SameBlock(size: int, i: int, j: int)
    requires size > 0
  {
    i / size == j / size
  }

  lemma BlockBounds(size: int, b: int, i: int)
    requires size > 0
    ensures i / size == b <==> b * size <= i < b * size + size
  {
    DivBounds(i, size);
    if b * size <= i < b * size + size {
      DivUnique(i, size, b);
    }
  }

  /** Ai after merging up to the given size: exact on the diagonal blocks. */
  ghost predicate Merged(ai: array2<real>, m: Mat, size: nat)
    requires size > 0
    reads ai
  {
    forall i, j :: 0 <= i < ai.Length0 && 0 <= j < ai.Length1 ==>
      (SameBlock(size, i, j) ==> ai[i, j] == Inv(m, i, j)) &&
      (i < j ==> ai[i, j] == 0.0)
  }

  /** The trailing half of a block of size 2h is already inverted. */
  ghost predicate Inverted(ai: array2<real>, m: Mat, lo: int, hi: int)
    requires 0 <= lo && hi <= ai.Length0 && hi <= ai.Length1
    reads ai
  {
    forall i, j :: lo <= i < hi && lo <= j < hi ==> ai[i, j] == Inv(m, i, j)
  }

  /** Entry (i, c) of A22 @ M21. */
  method LeftEntry(attn: array2<real>, ai: array2<real>, mid: nat, i2: nat, i: nat, c: nat, ghost m: Mat) returns (s: real)
    requires mid <= i < i2 <= ai.Length0 == ai.Length1 == attn.Length0 == attn.Length1
    requires c < attn.Length1
    requires Holds(attn, m) && Inverted(ai, m, mid, i2)
    ensures s == LeftProduct(m, mid, i2)(i, c)
  {
    s := 0.0;
    for l := mid to i2
      invariant s == Dot(mid, l, Row(InvMat(m), i), Col(m, c))
    {
      s := s + ai[i, l] * attn[l, c];
    }
  }

  /** The first n rows of p store A22 @ M21, in block-local indices. */
  ghost predicate LeftRows(p: array2<real>, m: Mat, i1: int, h: int, n: int)
    reads p
  {
    forall i, c :: 0 <= i < n && i < p.Length0 && 0 <= c < p.Length1 ==>
      p[i, c] == LeftProduct(m, i1 + h, i1 + 2 * h)(i1 + h + i, i1 + c)
  }

  method LeftRow(attn: array2<real>, ai: array2<real>, i1: nat, h: nat, i: nat, p: array2<real>, ghost m: Mat)
    requires ai.Length0 == ai.Length1 == attn.Length0 == attn.Length1
    requires i1 + 2 * h <= ai.Length0 && i < h == p.Length0 == p.Length1 && p != attn && p != ai
    requires Holds(attn, m) && Inverted(ai, m, i1 + h, i1 + 2 * h)
    modifies p
    ensures forall a, c :: 0 <= a < h && 0 <= c < h ==>
      p[a, c] == if a == i then LeftProduct(m, i1 + h, i1 + 2 * h)(i1 + h + a, i1 + c) else old(p[a, c])
  {
    hide LeftProduct, Inv, InvMat;
    for c := 0 to h
      invariant forall a, l :: 0 <= a < h && 0 <= l < h ==>
        p[a, l] == if a == i && l < c then LeftProduct(m, i1 + h, i1 + 2 * h)(i1 + h + a, i1 + l) else old(p[a, l])
    {
      var s := LeftEntry(attn, ai, i1 + h, i1 + 2 * h, i1 + h + i, i1 + c, m);
      p[i, c] := s;
    }
  }

  method LeftFactor(attn: array2<real>, ai: array2<real>, i1: nat, h: nat, ghost m: Mat) returns (p: array2<real>)
    requires ai.Length0 == ai.Length1 == attn.Length0 == attn.Length1
    requires i1 + 2 * h <= ai.Length0
    requires Holds(attn, m) && Inverted(ai, m, i1 + h, i1 + 2 * h)
    ensures fresh(p) && p.Length0 == p.Length1 == h
    ensures LeftRows(p, m, i1, h, h)
  {
    hide LeftProduct, Inv, Holds, Inverted;
    p := new real[h, h];
    for i := 0 to h
      invariant LeftRows(p, m, i1, h, i)
      invariant Holds(attn, m) && Inverted(ai, m, i1 + h, i1 + 2 * h)
    {
      LeftRow(attn, ai, i1, h, i, p, m);
    }
  }

  /** One more product of a row of A22 @ M21 and a column of A11. */
  lemma RightTerm(p: array2<real>, ai: array2<real>, i1: nat, i: nat, c: nat, l: nat, m: Mat)
    requires i < p.Length0 == p.Length1 && l < p.Length0 && i1 + p.Length0 <= ai.Length0 && c < ai.Length1
    requires LeftRows(p, m, i1, p.Length0, p.Length0) && ai[i1 + l, c] == Inv(m, i1 + l, c)
    ensures var h := p.Length0; var lp := LeftProduct(m, i1 + h, i1 + 2 * h);
      Dot(i1, i1 + l + 1, Row(lp, i1 + h + i), Col(InvMat(m), c))
        == Dot(i1, i1 + l, Row(lp, i1 + h + i), Col(InvMat(m), c)) + Times(p[i, l], ai[i1 + l, c])
  {
    hide Dot, LeftProduct, Inv;
    var h := p.Length0;
    var lp := LeftProduct(m, i1 + h, i1 + 2 * h);
    var f, g := Row(lp, i1 + h + i), Col(InvMat(m), c);
    var x, y := p[i, l], ai[i1 + l, c];
    assert f(i1 + l) == x && g(i1 + l) == y;
    DotStep(i1, l, f, g);
    assert f(i1 + l) * g(i1 + l) == Times(f(i1 + l), g(i1 + l));
    hide Times;
  }

  lemma RightEmpty(i1: int, f: Vec, g: Vec)
    ensures Dot(i1, i1, f, g) == 0.0
  {
  }

  /** Entry (i1 + h + i, c) of (A22 @ M21) @ A11. */
  method RightEntry(p: array2<real>, ai: array2<real>, i1: nat, i: nat, c: nat, ghost m: Mat) returns (s: real)
    requires i < p.Length0 == p.Length1 && i1 <= c < i1 + p.Length0
    requires i1 + 2 * p.Length0 <= ai.Length0 == ai.Length1
    requires LeftRows(p, m, i1, p.Length0, p.Length0)
    requires forall l :: i1 <= l < i1 + p.Length0 ==> ai[l, c] == Inv(m, l, c)
    ensures s == Inv(m, i1 + p.Length0 + i, c)
  {
    hide Dot, LeftProduct, Inv, InvMat, LeftRows, Row, Col, Times;
    var h := p.Length0;
    ghost var lp := LeftProduct(m, i1 + h, i1 + 2 * h);
    RightEmpty(i1, Row(lp, i1 + h + i), Col(InvMat(m), c));
    s := 0.0;
    for l := 0 to h
      invariant s == Dot(i1, i1 + l, Row(lp, i1 + h + i), Col(InvMat(m), c))
    {
      RightTerm(p, ai, i1, i, c, l, m);
      s := s + Times(p[i, l], ai[i1 + l, c]);
    }
    MergeIdentity(m, i1, i1 + h, i1 + 2 * h, i1 + h + i, c);
  }

  /** One row of the merged block. */
  method MergeRow(p: array2<real>, ai: array2<real>, i1: nat, i: nat, ghost m: Mat)
    requires i < p.Length0 == p.Length1 && p != ai && i1 + 2 * p.Length0 <= ai.Length0 == ai.Length1
    requires LeftRows(p, m, i1, p.Length0, p.Length0) && Inverted(ai, m, i1, i1 + p.Length0)
    modifies ai
    ensures forall a, c :: 0 <= a < ai.Length0 && 0 <= c < ai.Length0 ==>
      ai[a, c] == if a == i1 + p.Length0 + i && i1 <= c < i1 + p.Length0 then Inv(m, a, c) else old(ai[a, c])
  {
    hide LeftRows, Inv;
    var row := i1 + p.Length0 + i;
    for j := 0 to p.Length0
      invariant LeftRows(p, m, i1, p.Length0, p.Length0)
      invariant forall a, c :: 0 <= a < ai.Length0 && 0 <= c < ai.Length0 ==>
        ai[a, c] == if a == row && i1 <= c < i1 + j then Inv(m, a, c) else old(ai[a, c])
    {
      var s := RightEntry(p, ai, i1, i, i1 + j, m);
      ai[row, i1 + j] := s;
    }
  }

  /** Ai[i1+h:i2, i1:i1+h] = A22 @ M21 @ A11 for one block of size 2h. */
  method MergeBlock(attn: array2<real>, ai: array2<real>, i1: nat, h: nat, ghost m: Mat)
    requires ai != attn && ai.Length0 == ai.Length1 == attn.Length0 == attn.Length1
    requires i1 + 2 * h <= ai.Length0
    requires Holds(attn, m)
    requires Inverted(ai, m, i1, i1 + h) && Inverted(ai, m, i1 + h, i1 + 2 * h)
    modifies ai
    ensures forall i, j :: 0 <= i < ai.Length0 && 0 <= j < ai.Length0 ==>
      ai[i, j] == if i1 + h <= i < i1 + 2 * h && i1 <= j < i1 + h then Inv(m, i, j) else old(ai[i, j])
  {
    hide Holds, LeftRows, Inv;
    var p := LeftFactor(attn, ai, i1, h, m);
    for i := 0 to h
      modifies ai
      invariant LeftRows(p, m, i1, h, h)
      invariant forall a, c :: 0 <= a < ai.Length0 && 0 <= c < ai.Length0 ==>
        ai[a, c] == if i1 + h <= a < i1 + h + i && i1 <= c < i1 + h then Inv(m, a, c) else old(ai[a, c])
    {
      MergeRow(p, ai, i1, i, m);
    }
  }

  /** Where index i falls in the block of size 2h that starts at i1 = b * 2h. */
  lemma HalfBlocks(h: nat, b: nat, i1: nat, i: nat)
    requires h > 0 && i1 == b * (2 * h)
    ensures i / (2 * h) == b <==> i1 <= i < i1 + 2 * h
    ensures i1 <= i < i1 + h ==> i / h == 2 * b
    ensures i1 + h <= i < i1 + 2 * h ==> i / h == 2 * b + 1
  {
    assert (2 * b) * h == i1;
    MulSucc(2 * b, h);
    BlockBounds(2 * h, b, i);
    BlockBounds(h, 2 * b, i);
    BlockBounds(h, 2 * b + 1, i);
  }

  /** Rows below `done` are exact on the blocks of size 2h. */
  ghost predicate PassDone(ai: array2<real>, m: Mat, h: nat, done: nat)
    requires h > 0
    reads ai
  {
    forall i, j :: 0 <= i < done && i < ai.Length0 && 0 <= j < ai.Length1 && SameBlock(2 * h, i, j) ==>
      ai[i, j] == Inv(m, i, j)
  }

  lemma HalvesInverted(ai: array2<real>, m: Mat, h: nat, b: nat, i1: nat)
    requires h > 0 && i1 == b * (2 * h) && i1 + 2 * h <= ai.Length0 == ai.Length1
    requires Merged(ai, m, h)
    ensures Inverted(ai, m, i1, i1 + h) && Inverted(ai, m, i1 + h, i1 + 2 * h)
  {
    forall i | i1 <= i < i1 + 2 * h ensures i / h == if i < i1 + h then 2 * b else 2 * b + 1 {
      HalfBlocks(h, b, i1, i);
    }
  }

  /** A block whose quarters are exact below and on the diagonal, zero above. */
  lemma BlockExact(ai: array2<real>, m: Mat, h: nat, b: nat, i1: nat)
    requires h > 0 && i1 == b * (2 * h) && i1 + 2 * h <= ai.Length0 == ai.Length1
    requires Merged(ai, m, h)
    requires forall i, j :: i1 + h <= i < i1 + 2 * h && i1 <= j < i1 + h ==> ai[i, j] == Inv(m, i, j)
    requires PassDone(ai, m, h, i1)
    ensures PassDone(ai, m, h, i1 + 2 * h)
  {
    HalvesInverted(ai, m, h, b, i1);
    forall i, j | i1 <= i < i1 + 2 * h && 0 <= j < ai.Length1 && SameBlock(2 * h, i, j)
      ensures ai[i, j] == Inv(m, i, j)
    {
      HalfBlocks(h, b, i1, i);
      HalfBlocks(h, b, i1, j);
    }
  }

  /** Merge block b, keeping the blocks already done. */
  method MergeStep(attn: array2<real>, ai: array2<real>, b: nat, h: nat, ghost m: Mat)
    requires ai != attn && ai.Length0 == ai.Length1 == attn.Length0 == attn.Length1
    requires h > 0 && b * (2 * h) + 2 * h <= ai.Length0
    requires Holds(attn, m) && Merged(ai, m, h) && PassDone(ai, m, h, b * (2 * h))
    modifies ai
    ensures Merged(ai, m, h) && PassDone(ai, m, h, b * (2 * h) + 2 * h)
  {
    var i1 := b * (2 * h);
    HalvesInverted(ai, m, h, b, i1);
    MergeBlock(attn, ai, i1, h, m);
    BlockExact(ai, m, h, b, i1);
  }

  /** for bi in range(n // size): merge block bi. */
  method MergePass(attn: array2<real>, ai: array2<real>, blocks: nat, h: nat, ghost m: Mat)
    requires ai != attn && ai.Length0 == ai.Length1 == attn.Length0 == attn.Length1
    requires h > 0 && blocks * (2 * h) == ai.Length0
    requires Holds(attn, m) && Merged(ai, m, h)
    modifies ai
    ensures Merged(ai, m, 2 * h)
  {
    for b := 0 to blocks
      invariant Merged(ai, m, h)
      invariant PassDone(ai, m, h, b * (2 * h))
    {
      BlockFits(b, blocks, 2 * h);
      MergeStep(attn, ai, b, h, m);
      MulSucc(b, 2 * h);
    }
  }

  /** The base blocks of rows below n are exact, everything else is zero. */
  ghost predicate BlocksDone(ai: array2<real>, m: Mat, base: nat, n: int)
    requires base > 0
    reads ai
  {
    forall i, j :: 0 <= i < ai.Length0 && 0 <= j < ai.Length1 ==>
      ai[i, j] == if SameBlock(base, i, j) && i < n then Inv(m, i, j) else 0.0
  }

  /** Substitution on one base x base diagonal block. */
  method BaseBlock(attn: array2<real>, ai: array2<real>, b: nat, base: nat, ghost m: Mat)
    requires ai != attn && attn.Length0 == attn.Length1 == ai.Length0 == ai.Length1
    requires base > 0 && b * base + base <= attn.Length0
    requires Holds(attn, m) && StrictlyLower(m, 0, attn.Length0)
    requires BlocksDone(ai, m, base, b * base)
    modifies ai
    ensures BlocksDone(ai, m, base, b * base + base)
  {
    var lo := b * base;
    var blk := new real[base, base]((i, j) requires 0 <= i < base && 0 <= j < base reads attn => attn[lo + i, lo + j]);
    ghost var sub := Shift(m, lo);
    RowRecurrence(blk, sub);
    AddEye(blk, sub);
    forall i: nat ensures i / base == b <==> lo <= i < lo + base {
      BlockBounds(base, b, i);
    }
    StoreBlock(ai, blk, lo, m);
  }

  /** Substitution on every base block, the rest left at zero. */
  method BaseBlocks(attn: array2<real>, blocks: nat, base: nat, ghost m: Mat) returns (ai: array2<real>)
    requires attn.Length0 == attn.Length1 == blocks * base && base > 0
    requires Holds(attn, m) && StrictlyLower(m, 0, attn.Length0)
    ensures fresh(ai) && ai.Length0 == ai.Length1 == attn.Length0
    ensures Merged(ai, m, base)
  {
    var n := attn.Length0;
    ai := new real[n, n]((i, j) => 0.0);
    for b := 0 to blocks
      modifies ai
      invariant BlocksDone(ai, m, base, b * base)
    {
      BlockFits(b, blocks, base);
      BaseBlock(attn, ai, b, base, m);
      MulSucc(b, base);
    }
  }

  /** Ai[sl, sl] = blk. */
  method StoreBlock(ai: array2<real>, blk: array2<real>, lo: nat, ghost m: Mat)
    requires ai != blk && blk.Length0 == blk.Length1
    requires lo + blk.Length0 <= ai.Length0 == ai.Length1
    requires Holds(blk, InvMat(Shift(m, lo)))
    modifies ai
    ensures forall i, j :: 0 <= i < ai.Length0 && 0 <= j < ai.Length0 ==>
      ai[i, j] == if lo <= i < lo + blk.Length0 && lo <= j < lo + blk.Length0 then Inv(m, i, j) else old(ai[i, j])
  {
    var b := blk.Length0;
    for i := 0 to b
      modifies ai
      invariant forall a, c :: 0 <= a < ai.Length0 && 0 <= c < ai.Length0 ==>
        ai[a, c] == if lo <= a < lo + i && lo <= c < lo + b then Inv(m, a, c) else old(ai[a, c])
    {
      for j := 0 to b
        modifies ai
        invariant forall a, c :: 0 <= a < ai.Length0 && 0 <= c < ai.Length0 ==>
          ai[a, c] == if (lo <= a < lo + i && lo <= c < lo + b) || (a == lo + i && lo <= c < lo + j)
                      then Inv(m, a, c) else old(ai[a, c])
      {
        InvShift(m, lo, i, j);
        ai[lo + i, lo + j] := blk[i, j];
      }
    }
  }

  /** The blockwise inverse: base-block substitution, then d doubling merges.
      It stores the same matrix as the row recurrence plus the identity, for
      every base size and every number of doublings. */
  method BlockwiseInverse(attn: array2<real>, base: nat, d: nat, ghost m: Mat) returns (ai: array2<real>)
    requires base > 0 && attn.Length0 == attn.Length1 == base * TwoToThe(d)
    requires Holds(attn, m) && StrictlyLower(m, 0, attn.Length0)
    ensures Holds(ai, InvMat(m)) && fresh(ai)
    ensures ai.Length0 == ai.Length1 == attn.Length0
  {
    var n := attn.Length0;
    var blocks := n / base;
    DivExact(base, TwoToThe(d));
    assert blocks * base == n;
    ai := BaseBlocks(attn, blocks, base, m);
    var size := base;
    ghost var left := d;
    while size < n
      modifies ai
      invariant size > 0 && size * TwoToThe(left) == n
      invariant Merged(ai, m, size)
      decreases left
    {
      var h := size;
      size := 2 * size;
      assert h * (2 * TwoToThe(left - 1)) == (2 * h) * TwoToThe(left - 1);
      DivExact(size, TwoToThe(left - 1));
      MergePass(attn, ai, n / size, h, m);
      left := left - 1;
    }
    WholeBlock(ai, m, size, left);
  }

  lemma DivExact(a: nat, b: nat)
    requires a > 0
    ensures a * b / a == b && (a * b / a) * a == a * b
  {
    DivUnique(a * b, a, b);
  }

  /** Once the block is as large as the matrix, every entry is exact. */
  lemma WholeBlock(ai: array2<real>, m: Mat, size: nat, left: nat)
    requires 0 < size && ai.Length0 == ai.Length1 == size * TwoToThe(left) <= size
    requires Merged(ai, m, size)
    ensures Holds(ai, InvMat(m))
  {
    forall i, j | 0 <= i < ai.Length0 && 0 <= j < ai.Length1 ensures ai[i, j] == Inv(m, i, j) {
      BlockBounds(size, 0, i);
      BlockBounds(size, 0, j);
      assert SameBlock(size, i, j);
    }
  }
}
