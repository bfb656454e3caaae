/** Finite sums of real-valued functions over an integer range, and the few
    laws (congruence, linearity, splitting, exchange) the matrix proofs use. */
module Sums {

  type Vec = int -> real
  type Mat = (int, int) -> real

  /** f(lo) + ... + f(hi-1), accumulated from the left as the source's loops do. */
  function Sum(lo: int, hi: int, f: Vec): real
    decreases hi - lo
  {
    if hi <= lo then 0.0 else Sum(lo, hi - 1, f) + f(hi - 1)
  }

  lemma SumCongr(lo: int, hi: int, f: Vec, g: Vec)
    requires forall i :: lo <= i < hi ==> f(i) == g(i)
    ensures Sum(lo, hi, f) == Sum(lo, hi, g)
    decreases hi - lo
  {
    if lo < hi {
      SumCongr(lo, hi - 1, f, g);
    }
  }

  lemma SumZero(lo: int, hi: int, f: Vec)
    requires forall i :: lo <= i < hi ==> f(i) == 0.0
    ensures Sum(lo, hi, f) == 0.0
    decreases hi - lo
  {
    if lo < hi {
      SumZero(lo, hi - 1, f);
    }
  }

  lemma SumAdd(lo: int, hi: int, f: Vec, g: Vec, h: Vec)
    requires forall i :: lo <= i < hi ==> h(i) == f(i) + g(i)
    ensures Sum(lo, hi, h) == Sum(lo, hi, f) + Sum(lo, hi, g)
    decreases hi - lo
  {
    if lo < hi {
      SumAdd(lo, hi - 1, f, g, h);
    }
  }

  lemma SumScale(lo: int, hi: int, c: real, f: Vec, h: Vec)
    requires forall i :: lo <= i < hi ==> h(i) == c * f(i)
    ensures Sum(lo, hi, h) == c * Sum(lo, hi, f)
    decreases hi - lo
  {
    if lo < hi {
      SumScale(lo, hi - 1, c, f, h);
    }
  }

  lemma SumSplit(lo: int, mid: int, hi: int, f: Vec)
    requires lo <= mid <= hi
    ensures Sum(lo, hi, f) == Sum(lo, mid, f) + Sum(mid, hi, f)
    decreases hi - mid
  {
    if mid < hi {
      SumSplit(lo, mid, hi - 1, f);
    }
  }

  lemma {:induction false} SumShift(lo: int, n: nat, f: Vec, g: Vec)
    requires forall i :: 0 <= i < n ==> g(i) == f(lo + i)
    ensures Sum(lo, lo + n, f) == Sum(0, n, g)
  {
    if n > 0 {
      SumShift(lo, n - 1, f, g);
      assert g(n - 1) == f(lo + (n - 1));
    }
  }

  function Row(m: Mat, i: int): Vec { j => m(i, j) }

  function Col(m: Mat, j: int): Vec { i => m(i, j) }

  /** Row sums of a matrix, and its column sums. */
  function RowSums(lo: int, hi: int, m: Mat): Vec {
    i => Sum(lo, hi, Row(m, i))
  }

  function ColSums(lo: int, hi: int, m: Mat): Vec {
    j => Sum(lo, hi, Col(m, j))
  }

  /** The order of a double sum may be exchanged. */
  lemma SumSwap(a: int, b: int, c: int, d: int, m: Mat)
    ensures Sum(a, b, RowSums(c, d, m)) == Sum(c, d, ColSums(a, b, m))
    decreases b - a
  {
    if b <= a {
      SumZero(c, d, ColSums(a, b, m));
    } else {
      SumSwap(a, b - 1, c, d, m);
      SumAdd(c, d, ColSums(a, b - 1, m), Row(m, b - 1), ColSums(a, b, m));
    }
  }

  // ---- Inner products, rows and columns -----------------------------------

  function Dot(lo: int, hi: int, f: Vec, g: Vec): real {
    Sum(lo, hi, i => f(i) * g(i))
  }

  /** The vector m r, summed over columns [lo, hi). */
  function MatVec(m: Mat, lo: int, hi: int, r: Vec): Vec { i => Dot(lo, hi, Row(m, i), r) }

  /** The row vector a m, summed over rows [lo, hi). */
  function VecMat(a: Vec, lo: int, hi: int, m: Mat): Vec { j => Dot(lo, hi, a, Col(m, j)) }

  lemma DotCongr(lo: int, hi: int, f: Vec, g: Vec, f': Vec, g': Vec)
    requires forall i :: lo <= i < hi ==> f(i) == f'(i) && g(i) == g'(i)
    ensures Dot(lo, hi, f, g) == Dot(lo, hi, f', g')
  {
    SumCongr(lo, hi, i => f(i) * g(i), i => f'(i) * g'(i));
  }

  lemma DotTerms(lo: int, hi: int, f: Vec, g: Vec, f': Vec, g': Vec)
    requires forall i :: lo <= i < hi ==> f(i) * g(i) == f'(i) * g'(i)
    ensures Dot(lo, hi, f, g) == Dot(lo, hi, f', g')
  {
    SumCongr(lo, hi, i => f(i) * g(i), i => f'(i) * g'(i));
  }

  lemma DotIsSum(lo: int, hi: int, f: Vec, g: Vec, h: Vec)
    requires forall i :: lo <= i < hi ==> h(i) == f(i) * g(i)
    ensures Dot(lo, hi, f, g) == Sum(lo, hi, h)
  {
    SumCongr(lo, hi, i => f(i) * g(i), h);
  }

  lemma DotZero(lo: int, hi: int, f: Vec, g: Vec)
    requires forall i :: lo <= i < hi ==> f(i) == 0.0 || g(i) == 0.0
    ensures Dot(lo, hi, f, g) == 0.0
  {
    SumZero(lo, hi, i => f(i) * g(i));
  }

  lemma DotSplit(lo: int, mid: int, hi: int, f: Vec, g: Vec)
    requires lo <= mid <= hi
    ensures Dot(lo, hi, f, g) == Dot(lo, mid, f, g) + Dot(mid, hi, f, g)
  {
    SumSplit(lo, mid, hi, i => f(i) * g(i));
  }

  /** The next term of an inner product that has reached lo + k. */
  lemma DotStep(lo: int, k: nat, f: Vec, g: Vec)
    ensures Dot(lo, lo + k + 1, f, g) == Dot(lo, lo + k, f, g) + f(lo + k) * g(lo + k)
  {
    DotSplit(lo, lo + k, lo + k + 1, f, g);
    assert Sum(lo + k, lo + k, i => f(i) * g(i)) == 0.0;
  }

  lemma DotComm(lo: int, hi: int, f: Vec, g: Vec)
    ensures Dot(lo, hi, f, g) == Dot(lo, hi, g, f)
  {
    SumCongr(lo, hi, i => f(i) * g(i), i => g(i) * f(i));
  }

  lemma DotAdd(lo: int, hi: int, f: Vec, g: Vec, h: Vec, r: Vec)
    requires forall i :: lo <= i < hi ==> h(i) == f(i) + g(i)
    ensures Dot(lo, hi, h, r) == Dot(lo, hi, f, r) + Dot(lo, hi, g, r)
  {
    forall i | lo <= i < hi ensures h(i) * r(i) == f(i) * r(i) + g(i) * r(i) {
      assert (f(i) + g(i)) * r(i) == f(i) * r(i) + g(i) * r(i);
    }
    SumAdd(lo, hi, i => f(i) * r(i), i => g(i) * r(i), i => h(i) * r(i));
  }

  lemma DotScale(lo: int, hi: int, c: real, f: Vec, h: Vec, r: Vec)
    requires forall i :: lo <= i < hi ==> h(i) == c * f(i)
    ensures Dot(lo, hi, h, r) == c * Dot(lo, hi, f, r)
  {
    forall i | lo <= i < hi ensures h(i) * r(i) == c * (f(i) * r(i)) {
      assert (c * f(i)) * r(i) == c * (f(i) * r(i));
    }
    SumScale(lo, hi, c, i => f(i) * r(i), i => h(i) * r(i));
  }

  /** A sum of products as an entry of a scaled row: c * <f, g> term by term. */
  lemma DotScaleSum(lo: int, hi: int, c: real, f: Vec, g: Vec, h: Vec)
    requires forall i :: lo <= i < hi ==> h(i) == c * (f(i) * g(i))
    ensures Sum(lo, hi, h) == c * Dot(lo, hi, f, g)
  {
    SumScale(lo, hi, c, i => f(i) * g(i), h);
  }

  ghost function Delta(i: int, j: int): real { if i == j then 1.0 else 0.0 }

  lemma DotDelta(lo: int, hi: int, i: int, r: Vec)
    requires lo <= i < hi
    ensures Dot(lo, hi, Row(Delta, i), r) == r(i)
  {
    var d := Row(Delta, i);
    DotSplit(lo, i, hi, d, r);
    DotSplit(i, i + 1, hi, d, r);
    DotZero(lo, i, d, r);
    DotZero(i + 1, hi, d, r);
    assert Dot(i, i + 1, d, r) == Sum(i, i, q => d(q) * r(q)) + d(i) * r(i);
  }

  /** The terms of a m r. */
  function Terms(a: Vec, m: Mat, r: Vec): Mat {
    (l, q) => a(l) * (m(l, q) * r(q))
  }

  lemma TermsByRow(a: Vec, m: Mat, c: int, d: int, r: Vec, l: int)
    ensures RowSums(c, d, Terms(a, m, r))(l) == a(l) * MatVec(m, c, d, r)(l)
  {
    var both := Terms(a, m, r);
    forall q | c <= q < d ensures Row(both, l)(q) == a(l) * (Row(m, l)(q) * r(q)) {
      assert both(l, q) == a(l) * (m(l, q) * r(q));
    }
    DotScaleSum(c, d, a(l), Row(m, l), r, Row(both, l));
  }

  lemma TermsByCol(a: Vec, lo: int, hi: int, m: Mat, r: Vec, q: int)
    ensures ColSums(lo, hi, Terms(a, m, r))(q) == VecMat(a, lo, hi, m)(q) * r(q)
  {
    var both := Terms(a, m, r);
    forall l | lo <= l < hi ensures Col(both, q)(l) == r(q) * (a(l) * Col(m, q)(l)) {
      assert both(l, q) == a(l) * (m(l, q) * r(q));
      MulRotate(a(l), m(l, q), r(q));
    }
    DotScaleSum(lo, hi, r(q), a, Col(m, q), Col(both, q));
  }

  /** Row vector, matrix, column vector: the product is associative. */
  lemma DotAssoc(a: Vec, lo: int, hi: int, m: Mat, c: int, d: int, r: Vec)
    ensures Dot(lo, hi, a, MatVec(m, c, d, r)) == Dot(c, d, VecMat(a, lo, hi, m), r)
  {
    hide Dot, Terms;
    var both := Terms(a, m, r);
    forall l | lo <= l < hi ensures RowSums(c, d, both)(l) == a(l) * MatVec(m, c, d, r)(l) {
      TermsByRow(a, m, c, d, r, l);
    }
    DotIsSum(lo, hi, a, MatVec(m, c, d, r), RowSums(c, d, both));
    SumSwap(lo, hi, c, d, both);
    forall q | c <= q < d ensures ColSums(lo, hi, both)(q) == VecMat(a, lo, hi, m)(q) * r(q) {
      TermsByCol(a, lo, hi, m, r, q);
    }
    DotIsSum(c, d, VecMat(a, lo, hi, m), r, ColSums(lo, hi, both));
  }

  lemma MulRotate(x: real, y: real, z: real)
    ensures x * (y * z) == z * (x * y)
  {
  }
}
