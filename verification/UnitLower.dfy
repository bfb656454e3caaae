/** Inverse of I - M for a strictly lower triangular M: the reference
    definition, the two inverse laws and the triangular solve. */
module UnitLower {
  import opened Sums

  /** Entry (i, j) of (I - M)^-1, by forward substitution down column j. Only
      entries M(a, b) with j <= b < a <= i are read. */
  ghost function Inv(m: Mat, i: int, j: int): real
    decreases if i < j then 0 else i - j, 1, 0
  {
    if i < j then 0.0
    else if i == j then 1.0
    else InvTail(m, i, j, i)
  }

  ghost function InvTail(m: Mat, i: int, j: int, h: int): real
    requires j <= h <= i
    decreases i - j, 0, h - j
  {
    if h == j then 0.0 else InvTail(m, i, j, h - 1) + m(i, h - 1) * Inv(m, h - 1, j)
  }

  /** (I - M)^-1 as a matrix. */
  ghost function InvMat(m: Mat): Mat { (i, j) => Inv(m, i, j) }

  lemma InvTailIsSum(m: Mat, i: int, j: int, h: int)
    requires j <= h <= i
    ensures InvTail(m, i, j, h) == Dot(j, h, Row(m, i), Col(InvMat(m), j))
    decreases h - j
  {
    if h > j {
      InvTailIsSum(m, i, j, h - 1);
    }
  }

  /** T = I + M T, summed over any range [lo, i) whose start is at most j. */
  lemma InvUnfold(m: Mat, lo: int, i: int, j: int)
    requires lo <= i && lo <= j
    ensures Inv(m, i, j) == Delta(i, j) + Dot(lo, i, Row(m, i), Col(InvMat(m), j))
  {
    var f, g := Row(m, i), Col(InvMat(m), j);
    if j < i {
      InvTailIsSum(m, i, j, i);
      DotSplit(lo, j, i, f, g);
      DotZero(lo, j, f, g);
    } else {
      DotZero(lo, i, f, g);
    }
  }

  /** Row a of the system x = r + M x, for M strictly lower on [lo, ..). */
  ghost predicate RowSolved(m: Mat, lo: int, r: Vec, x: Vec, a: int) {
    x(a) == r(a) + Dot(lo, a, Row(m, a), x)
  }

  /** The triangular solve: x = r + M x on [lo, hi) has the one solution T r. */
  lemma {:induction false} Solve(m: Mat, lo: int, hi: int, r: Vec, x: Vec, i: int)
    requires forall a :: lo <= a < hi ==> RowSolved(m, lo, r, x, a)
    requires lo <= i < hi
    ensures x(i) == Dot(lo, hi, Row(InvMat(m), i), r)
    decreases i - lo
  {
    var t := InvMat(m);
    var tr := MatVec(t, lo, hi, r);
    forall l | lo <= l < i ensures x(l) == tr(l) {
      Solve(m, lo, hi, r, x, l);
    }
    DotCongr(lo, i, Row(m, i), x, Row(m, i), tr);
    DotAssoc(Row(m, i), lo, i, t, lo, hi, r);
    var mt := VecMat(Row(m, i), lo, i, t);
    forall c | lo <= c < hi ensures Row(t, i)(c) == Row(Delta, i)(c) + mt(c) {
      InvUnfold(m, lo, i, c);
    }
    DotAdd(lo, hi, Row(Delta, i), mt, Row(t, i), r);
    DotDelta(lo, hi, i, r);
    assert RowSolved(m, lo, r, x, i);
  }

  /** I - M. */
  ghost function Unit(m: Mat): Mat { (i, j) => Delta(i, j) - m(i, j) }

  ghost predicate StrictlyLower(m: Mat, lo: int, hi: int) {
    forall a, b :: lo <= a <= b < hi ==> m(a, b) == 0.0
  }

  /** T (I - M) = I on any diagonal block [lo, hi). */
  lemma {:induction false} InvLeft(m: Mat, lo: int, hi: int, i: int, j: int)
    requires lo <= i < hi && lo <= j < hi
    requires StrictlyLower(m, lo, hi)
    ensures Dot(lo, hi, Row(InvMat(m), i), Col(Unit(m), j)) == Delta(i, j)
  {
    // Column j of I solves x = r + M x when r is column j of I - M.
    var x, r := Col(Delta, j), Col(Unit(m), j);
    forall a | lo <= a < hi ensures RowSolved(m, lo, r, x, a) {
      var f := Row(m, a);
      DotComm(lo, a, f, x);
      DotCongr(lo, a, x, f, Row(Delta, j), f);
      if j < a {
        DotDelta(lo, a, j, f);
      } else {
        DotZero(lo, a, Row(Delta, j), f);
      }
    }
    Solve(m, lo, hi, r, x, i);
  }

  /** (I - M) T = I on any diagonal block [lo, hi). */
  lemma InvRight(m: Mat, lo: int, hi: int, i: int, j: int)
    requires lo <= i < hi && lo <= j < hi
    requires StrictlyLower(m, lo, hi)
    ensures Dot(lo, hi, Row(Unit(m), i), Col(InvMat(m), j)) == Delta(i, j)
  {
    var t, row := Col(InvMat(m), j), Row(m, i);
    var neg := q => -1.0 * row(q);
    DotAdd(lo, hi, Row(Delta, i), neg, Row(Unit(m), i), t);
    DotDelta(lo, hi, i, t);
    DotScale(lo, hi, -1.0, row, neg, t);
    DotSplit(lo, i, hi, row, t);
    DotZero(i, hi, row, t);
    InvUnfold(m, lo, i, j);
  }
}
