/** The algebra of the chunked (WY) form: inside a chunk the token recurrence
    has a closed form, its residuals solve a unit lower triangular system, and
    outputs and carried state follow. exp is a parameter (ExpLaws). */
module KdaChunkAlgebra {
  import opened ExpLaws
  import opened Sums
  import opened UnitLower
  import opened KdaRecurrence

  /** One slice: g holds log gates, q is already scaled. */
  datatype Slice = Slice(exp: real -> real, kd: nat, q: Mat, k: Mat, v: Mat, g: Mat, beta: Vec)

  ghost function Gates(x: Slice): Mat { (t, e) => x.exp(x.g(t, e)) }

  ghost function Tok(x: Slice): Tokens { Tokens(x.q, x.k, x.v, Gates(x), x.beta) }

  /** Sum of the log gates of tokens lo .. n-1, key dimension e. */
  ghost function Cum(x: Slice, lo: int, n: int, e: int): real { Sum(lo, n, Col(x.g, e)) }

  /** Key j decayed from just after token j to after token n-1: entry (e, j). */
  ghost function Decayed(x: Slice, lo: int, n: int): Mat {
    (e, j) => x.k(j, e) * x.exp(Cum(x, lo, n, e) - Cum(x, lo, j + 1, e))
  }

  /** State s decayed over tokens lo .. n-1. */
  ghost function Carried(x: Slice, lo: int, n: int, s: Mat): Mat {
    (e, d) => s(e, d) * x.exp(Cum(x, lo, n, e))
  }

  /** Residual (the v_new row) of every token of the chunk, value column d. */
  ghost function Residuals(x: Slice, s0: Mat, d: int): Vec {
    j => if j < 0 then 0.0 else Residual(Tok(x), x.kd, j, StateAt(Tok(x), x.kd, s0, j))(d)
  }

  /** Closed form of the state inside a chunk. */
  ghost function Closed(x: Slice, lo: int, n: int, s: Mat, u: Vec, d: int): Vec {
    var carried, kept := Carried(x, lo, n, s), Decayed(x, lo, n);
    e => carried(e, d) + Dot(lo, n, Row(kept, e), u)
  }

  /** Gating advances the decay factors by one token. */
  lemma GateClosed(x: Slice, lo: int, n: int, s: Mat, u: Vec, d: int, e: int)
    requires IsExp(x.exp) && lo <= n
    ensures Gates(x)(n, e) * Closed(x, lo, n, s, u, d)(e) == Carried(x, lo, n + 1, s)(e, d) + Dot(lo, n, Row(Decayed(x, lo, n + 1), e), u)
  {
    var a, a', c := Cum(x, lo, n, e), Cum(x, lo, n + 1, e), x.g(n, e);
    assert a' == a + c;
    ExpSum(x.exp, a, c, a');
    var kept, kept' := Decayed(x, lo, n), Decayed(x, lo, n + 1);
    forall j | lo <= j < n ensures Row(kept', e)(j) == x.exp(c) * Row(kept, e)(j) {
      var b := Cum(x, lo, j + 1, e);
      ExpSum(x.exp, a - b, c, a' - b);
      Mul3(x.k(j, e), x.exp(a - b), x.exp(c));
    }
    DotScale(lo, n, x.exp(c), Row(kept, e), Row(kept', e), u);
    Mul3(s(e, d), x.exp(a), x.exp(c));
    assert x.exp(c) * (s(e, d) * x.exp(a) + Dot(lo, n, Row(kept, e), u))
        == x.exp(c) * (s(e, d) * x.exp(a)) + x.exp(c) * Dot(lo, n, Row(kept, e), u);
  }

  lemma Mul3(a: real, b: real, c: real)
    ensures a * (b * c) == c * (a * b)
  {
  }

  /** ... and the new key enters undecayed. */
  lemma ClosedStep(x: Slice, lo: int, n: int, s: Mat, u: Vec, d: int, e: int)
    requires IsExp(x.exp) && lo <= n
    ensures Closed(x, lo, n + 1, s, u, d)(e) == Gates(x)(n, e) * Closed(x, lo, n, s, u, d)(e) + x.k(n, e) * u(n)
  {
    GateClosed(x, lo, n, s, u, d, e);
    ExpZero(x.exp);
    var row := Row(Decayed(x, lo, n + 1), e);
    assert row(n) == x.k(n, e) * x.exp(0.0) == x.k(n, e);
    assert Dot(lo, n + 1, row, u) == Dot(lo, n, row, u) + row(n) * u(n);
  }

  lemma StateStep(x: Slice, s0: Mat, n: nat, e: int, d: int)
    ensures StateAt(Tok(x), x.kd, s0, n + 1)(e, d)
         == Gates(x)(n, e) * StateAt(Tok(x), x.kd, s0, n)(e, d) + x.k(n, e) * Residuals(x, s0, d)(n)
  {
    NextRow(Tok(x), x.kd, s0, n);
  }

  lemma ClosedStart(x: Slice, lo: int, s: Mat, u: Vec, d: int, e: int)
    requires IsExp(x.exp)
    ensures Closed(x, lo, lo, s, u, d)(e) == s(e, d)
  {
    ExpZero(x.exp);
    assert Cum(x, lo, lo, e) == 0.0;
    assert Carried(x, lo, lo, s)(e, d) == s(e, d) * x.exp(0.0);
    assert Dot(lo, lo, Row(Decayed(x, lo, lo), e), u) == 0.0;
  }

  /** The token recurrence, unrolled over part of a chunk. */
  lemma {:induction false} ClosedForm(x: Slice, s0: Mat, lo: nat, n: nat, e: int, d: int)
    requires IsExp(x.exp) && lo <= n
    ensures StateAt(Tok(x), x.kd, s0, n)(e, d)
         == Closed(x, lo, n, StateAt(Tok(x), x.kd, s0, lo), Residuals(x, s0, d), d)(e)
    decreases n
  {
    var s, u := StateAt(Tok(x), x.kd, s0, lo), Residuals(x, s0, d);
    if n == lo {
      ClosedStart(x, lo, s, u, d, e);
    } else {
      hide StateAt, Closed, Residuals;
      var p := n - 1;
      ClosedForm(x, s0, lo, p, e, d);
      ClosedStep(x, lo, p, s, u, d, e);
      StateStep(x, s0, p, e, d);
    }
  }

  // ---- The triangular system -------------------------------------------------

  /** attn before inversion: -(k_i beta_i) . (k_j decayed from j to i), j < i. */
  ghost function System(x: Slice, lo: int): Mat {
    (i, j) => if j < i then -(x.beta(i) * Dot(0, x.kd, Row(x.k, i), Col(Decayed(x, lo, i + 1), j))) else 0.0
  }

  /** Right-hand side: beta_i v_i minus the prediction from the carried state. */
  ghost function Rhs(x: Slice, lo: int, s: Mat, d: int): Vec {
    i => x.beta(i) * x.v(i, d) - x.beta(i) * Dot(0, x.kd, Row(x.k, i), Col(Carried(x, lo, i + 1, s), d))
  }

  /** What a query row reads from the closed form: the carried state plus the
      chunk's own keys. */
  lemma ReadClosed(x: Slice, lo: int, n: int, c: int, s: Mat, u: Vec, d: int, y: Vec, state: Vec)
    requires lo <= c
    requires forall e :: 0 <= e < x.kd ==>
      state(e) == Carried(x, lo, n, s)(e, d) + Dot(lo, c, Row(Decayed(x, lo, n), e), u)
    ensures Dot(0, x.kd, y, state)
         == Dot(0, x.kd, y, Col(Carried(x, lo, n, s), d)) + Dot(lo, c, VecMat(y, 0, x.kd, Decayed(x, lo, n)), u)
  {
    var kept := Decayed(x, lo, n);
    var own := MatVec(kept, lo, c, u);
    var carried := Col(Carried(x, lo, n, s), d);
    DotAdd(0, x.kd, carried, own, state, y);
    DotComm(0, x.kd, y, state);
    DotComm(0, x.kd, y, carried);
    DotComm(0, x.kd, y, own);
    DotAssoc(y, 0, x.kd, kept, lo, c, u);
  }

  /** The residuals solve the system. */
  lemma ResidualsSolve(x: Slice, s0: Mat, lo: nat, n: nat, d: int)
    requires IsExp(x.exp) && lo <= n
    ensures RowSolved(System(x, lo), lo, Rhs(x, lo, StateAt(Tok(x), x.kd, s0, lo), d), Residuals(x, s0, d), n)
  {
    var s, sn, u := StateAt(Tok(x), x.kd, s0, lo), StateAt(Tok(x), x.kd, s0, n), Residuals(x, s0, d);
    assert u(n) == Residual(Tok(x), x.kd, n, sn)(d);
    forall e | 0 <= e < x.kd ensures sn(e, d) == Closed(x, lo, n, s, u, d)(e) {
      ClosedForm(x, s0, lo, n, e, d);
    }
    SolveRow(x, lo, n, s, sn, u, d);
  }

  lemma SolveRow(x: Slice, lo: nat, n: nat, s: Mat, sn: Mat, u: Vec, d: int)
    requires IsExp(x.exp) && lo <= n && u(n) == Residual(Tok(x), x.kd, n, sn)(d)
    requires forall e :: 0 <= e < x.kd ==> sn(e, d) == Closed(x, lo, n, s, u, d)(e)
    ensures RowSolved(System(x, lo), lo, Rhs(x, lo, s, d), u, n)
  {
    var gated := Col(Gated(Tok(x), n, sn), d);
    forall e | 0 <= e < x.kd
      ensures gated(e) == Carried(x, lo, n + 1, s)(e, d) + Dot(lo, n, Row(Decayed(x, lo, n + 1), e), u)
    {
      GateClosed(x, lo, n, s, u, d, e);
      assert gated(e) == Gates(x)(n, e) * Closed(x, lo, n, s, u, d)(e);
    }
    ReadClosed(x, lo, n + 1, n, s, u, d, Row(x.k, n), gated);
    var own := VecMat(Row(x.k, n), 0, x.kd, Decayed(x, lo, n + 1));
    SystemRow(x, lo, n, own, u);
    ResidualValue(x, sn, n, d);
    Distribute3(x.beta(n), x.v(n, d), Dot(0, x.kd, Row(x.k, n), Col(Carried(x, lo, n + 1, s), d)), Dot(lo, n, own, u));
  }

  lemma ResidualValue(x: Slice, s: Mat, n: nat, d: int)
    ensures Residual(Tok(x), x.kd, n, s)(d)
         == x.beta(n) * (x.v(n, d) - Dot(0, x.kd, Row(x.k, n), Col(Gated(Tok(x), n, s), d)))
  {
  }

  lemma Distribute3(b: real, v: real, p: real, i: real)
    ensures b * (v - (p + i)) == b * v - b * p + -b * i
  {
  }

  lemma SystemRow(x: Slice, lo: int, n: int, own: Vec, u: Vec)
    requires lo <= n && own == VecMat(Row(x.k, n), 0, x.kd, Decayed(x, lo, n + 1))
    ensures Dot(lo, n, Row(System(x, lo), n), u) == -x.beta(n) * Dot(lo, n, own, u)
  {
    var row := Row(System(x, lo), n);
    forall j | lo <= j < n ensures row(j) == -x.beta(n) * own(j) {
      NegMul(x.beta(n), own(j));
    }
    DotScale(lo, n, -x.beta(n), own, row, u);
  }

  lemma NegMul(a: real, b: real)
    ensures -(a * b) == -a * b
  {
  }

  // ---- What one chunk computes -------------------------------------------------

  /** v * beta. */
  ghost function VBeta(x: Slice): Mat { (t, d) => x.v(t, d) * x.beta(t) }

  /** (k * beta) * g.exp(). */
  ghost function KDecay(x: Slice, lo: int): Mat { (t, e) => (x.k(t, e) * x.beta(t)) * x.exp(Cum(x, lo, t + 1, e)) }

  /** attn @ v_beta. */
  ghost function ValueMat(x: Slice, lo: int, hi: int): Mat {
    (n, d) => Dot(lo, hi, Row(InvMat(System(x, lo)), n), Col(VBeta(x), d))
  }

  /** attn @ (k_beta * g.exp()). */
  ghost function CumDecay(x: Slice, lo: int, hi: int): Mat {
    (n, e) => Dot(lo, hi, Row(InvMat(System(x, lo)), n), Col(KDecay(x, lo), e))
  }

  /** q * g.exp(). */
  ghost function QDecay(x: Slice, lo: int): Mat { (t, e) => x.q(t, e) * x.exp(Cum(x, lo, t + 1, e)) }

  /** The masked query-key matrix: token n reads tokens j <= n of its chunk. */
  ghost function Intra(x: Slice, lo: int): Mat {
    (n, j) => if j <= n then Dot(0, x.kd, Row(x.q, n), Col(Decayed(x, lo, n + 1), j)) else 0.0
  }

  lemma RhsEntry(x: Slice, lo: int, s: Mat, d: int, m: int)
    ensures Rhs(x, lo, s, d)(m) == VBeta(x)(m, d) - MatVec(KDecay(x, lo), 0, x.kd, Col(s, d))(m)
  {
    var b, carried := x.beta(m), Col(Carried(x, lo, m + 1, s), d);
    var kdec := Row(KDecay(x, lo), m);
    var prod := e => kdec(e) * Col(s, d)(e);
    forall e | 0 <= e < x.kd ensures prod(e) == b * (Row(x.k, m)(e) * carried(e)) {
      var ex := x.exp(Cum(x, lo, m + 1, e));
      assert kdec(e) == (x.k(m, e) * b) * ex && carried(e) == s(e, d) * ex;
      Shuffle(x.k(m, e), b, ex, s(e, d));
    }
    DotScaleSum(0, x.kd, b, Row(x.k, m), carried, prod);
    SumCongr(0, x.kd, prod, e => kdec(e) * Col(s, d)(e));
  }

  lemma Shuffle(k: real, b: real, ex: real, s: real)
    ensures ((k * b) * ex) * s == b * (k * (s * ex))
  {
  }

  /** v_new = value - k_cumdecay @ state is the recurrence's residual. */
  lemma VNewIsResidual(x: Slice, s0: Mat, lo: nat, hi: nat, n: nat, d: int)
    requires IsExp(x.exp) && lo <= n < hi
    ensures Residuals(x, s0, d)(n)
         == ValueMat(x, lo, hi)(n, d) - Dot(0, x.kd, Row(CumDecay(x, lo, hi), n), Col(StateAt(Tok(x), x.kd, s0, lo), d))
  {
    var s, u := StateAt(Tok(x), x.kd, s0, lo), Residuals(x, s0, d);
    forall a | lo <= a < hi ensures RowSolved(System(x, lo), lo, Rhs(x, lo, s, d), u, a) {
      ResidualsSolve(x, s0, lo, a, d);
    }
    Solve(System(x, lo), lo, hi, Rhs(x, lo, s, d), u, n);
    SplitRhs(x, lo, hi, s, n, d);
  }

  lemma SplitRhs(x: Slice, lo: nat, hi: nat, s: Mat, n: nat, d: int)
    ensures Dot(lo, hi, Row(InvMat(System(x, lo)), n), Rhs(x, lo, s, d))
         == ValueMat(x, lo, hi)(n, d) - Dot(0, x.kd, Row(CumDecay(x, lo, hi), n), Col(s, d))
  {
    var t := Row(InvMat(System(x, lo)), n);
    var vb, pred, rhs := Col(VBeta(x), d), MatVec(KDecay(x, lo), 0, x.kd, Col(s, d)), Rhs(x, lo, s, d);
    forall m | lo <= m < hi ensures vb(m) == rhs(m) + pred(m) {
      RhsEntry(x, lo, s, d, m);
    }
    DotAdd(lo, hi, rhs, pred, vb, t);
    DotComm(lo, hi, t, rhs);
    DotComm(lo, hi, t, pred);
    DotComm(lo, hi, t, vb);
    DotAssoc(t, lo, hi, KDecay(x, lo), 0, x.kd, Col(s, d));
    DotCongr(0, x.kd, VecMat(t, lo, hi, KDecay(x, lo)), Col(s, d), Row(CumDecay(x, lo, hi), n), Col(s, d));
  }

  /** attn_inter + attn_intra @ v_new is the recurrence's output row. */
  lemma ChunkOutput(x: Slice, s0: Mat, lo: nat, hi: nat, n: nat, d: int)
    requires IsExp(x.exp) && lo <= n < hi
    ensures OutAt(Tok(x), x.kd, s0, n)(d)
         == Dot(0, x.kd, Row(QDecay(x, lo), n), Col(StateAt(Tok(x), x.kd, s0, lo), d))
          + Dot(lo, hi, Row(Intra(x, lo), n), Residuals(x, s0, d))
  {
    var s, sn, u := StateAt(Tok(x), x.kd, s0, lo), StateAt(Tok(x), x.kd, s0, n + 1), Residuals(x, s0, d);
    forall e | 0 <= e < x.kd ensures sn(e, d) == Closed(x, lo, n + 1, s, u, d)(e) {
      ClosedForm(x, s0, lo, n + 1, e, d);
    }
    ReadOut(x, lo, hi, n, s, sn, u, d);
  }

  lemma ReadOut(x: Slice, lo: nat, hi: nat, n: nat, s: Mat, sn: Mat, u: Vec, d: int)
    requires lo <= n < hi
    requires forall e :: 0 <= e < x.kd ==> sn(e, d) == Closed(x, lo, n + 1, s, u, d)(e)
    ensures Dot(0, x.kd, Row(x.q, n), Col(sn, d))
         == Dot(0, x.kd, Row(QDecay(x, lo), n), Col(s, d)) + Dot(lo, hi, Row(Intra(x, lo), n), u)
  {
    var q, state := Row(x.q, n), Col(sn, d);
    forall e | 0 <= e < x.kd
      ensures state(e) == Carried(x, lo, n + 1, s)(e, d) + Dot(lo, n + 1, Row(Decayed(x, lo, n + 1), e), u)
    {
      assert sn(e, d) == Closed(x, lo, n + 1, s, u, d)(e);
    }
    ReadClosed(x, lo, n + 1, n + 1, s, u, d, q, state);
    CarriedRead(x, lo, n, s, d);
    var intra := Row(Intra(x, lo), n);
    DotCongr(lo, n + 1, VecMat(q, 0, x.kd, Decayed(x, lo, n + 1)), u, intra, u);
    DotSplit(lo, n + 1, hi, intra, u);
    DotZero(n + 1, hi, intra, u);
  }

  lemma CarriedRead(x: Slice, lo: int, n: int, s: Mat, d: int)
    ensures Dot(0, x.kd, Row(x.q, n), Col(Carried(x, lo, n + 1, s), d)) == Dot(0, x.kd, Row(QDecay(x, lo), n), Col(s, d))
  {
    var f, g := Row(x.q, n), Col(Carried(x, lo, n + 1, s), d);
    var f', g' := Row(QDecay(x, lo), n), Col(s, d);
    forall e | 0 <= e < x.kd ensures f(e) * g(e) == f'(e) * g'(e) {
      Assoc3(x.q(n, e), s(e, d), x.exp(Cum(x, lo, n + 1, e)));
    }
    DotTerms(0, x.kd, f, g, f', g');
  }

  lemma Assoc3(a: real, b: real, c: real)
    ensures a * (b * c) == (a * c) * b
  {
  }

  // ---- Padding -----------------------------------------------------------------

  lemma PaddedStep(x: Slice, s0: Mat, n: nat, e: int, d: int)
    requires IsExp(x.exp) && x.k(n, e) == 0.0 && x.g(n, e) == 0.0
    ensures StateAt(Tok(x), x.kd, s0, n + 1)(e, d) == StateAt(Tok(x), x.kd, s0, n)(e, d)
  {
    ExpZero(x.exp);
    assert Gates(x)(n, e) == 1.0;
    hide StateAt, Residuals, IsExp;
    StateStep(x, s0, n, e, d);
  }

  /** Zero tokens after the sequence leave the state alone. */
  lemma {:induction false} PaddingKeepsState(x: Slice, s0: Mat, len: nat, n: nat, e: int, d: int)
    requires IsExp(x.exp) && len <= n
    requires forall t, c :: len <= t ==> x.k(t, c) == 0.0 && x.g(t, c) == 0.0
    ensures StateAt(Tok(x), x.kd, s0, n)(e, d) == StateAt(Tok(x), x.kd, s0, len)(e, d)
    decreases n
  {
    if len < n {
      hide StateAt;
      PaddingKeepsState(x, s0, len, n - 1, e, d);
      PaddedStep(x, s0, n - 1, e, d);
    }
  }
}
