/** The delta rule with one scalar gate per token. Its prediction reads the
    ungated previous state, so it is not the per-dimension rule of
    KdaRecurrence; KdaRulesCompared compares the two. */
module KdaScalarAlgebra {
  import opened ExpLaws
  import opened Sums

  datatype Tokens = Tokens(q: Mat, k: Mat, v: Mat, gate: Vec, beta: Vec)

  /** v_t - S k_t. */
  ghost function Residual(x: Tokens, dim: int, t: int, s: Mat): Vec {
    d => x.v(t, d) - Dot(0, dim, Row(s, d), Row(x.k, t))
  }

  /** g_t S + b_t (v_t - S k_t) k_t^T. */
  ghost function Step(x: Tokens, dim: int, t: int, s: Mat): Mat {
    var u := Residual(x, dim, t, s);
    (d, e) => x.gate(t) * s(d, e) + (x.beta(t) * u(d)) * x.k(t, e)
  }

  /** The value-major state after the first t tokens, from a zero state. */
  ghost function StateAt(x: Tokens, dim: int, t: nat): Mat {
    if t == 0 then (d, e) => 0.0 else Step(x, dim, t - 1, StateAt(x, dim, t - 1))
  }

  /** o_t = S_t q_t. */
  ghost function OutAt(x: Tokens, dim: int, t: nat): Vec {
    var s := StateAt(x, dim, t + 1);
    d => Dot(0, dim, Row(s, d), Row(x.q, t))
  }

  /** The rows depend on the gates' values only. */
  lemma {:induction false} StateCongr(x: Tokens, y: Tokens, dim: int, n: nat, d: int, e: int)
    requires x.q == y.q && x.k == y.k && x.v == y.v && x.beta == y.beta
    requires forall t :: 0 <= t < n ==> x.gate(t) == y.gate(t)
    ensures StateAt(x, dim, n)(d, e) == StateAt(y, dim, n)(d, e)
  {
    if n > 0 {
      var s, r := StateAt(x, dim, n - 1), StateAt(y, dim, n - 1);
      forall c: int ensures s(d, c) == r(d, c) {
        StateCongr(x, y, dim, n - 1, d, c);
      }
      DotCongr(0, dim, Row(s, d), Row(x.k, n - 1), Row(r, d), Row(y.k, n - 1));
      StepRow(x, y, dim, n - 1, s, r, d, e);
    }
  }

  lemma StepRow(x: Tokens, y: Tokens, dim: int, t: int, s: Mat, r: Mat, d: int, e: int)
    requires x.k == y.k && x.v == y.v && x.beta == y.beta && x.gate(t) == y.gate(t) && s(d, e) == r(d, e)
    requires Dot(0, dim, Row(s, d), Row(x.k, t)) == Dot(0, dim, Row(r, d), Row(y.k, t))
    ensures Step(x, dim, t, s)(d, e) == Step(y, dim, t, r)(d, e)
  {
    hide Dot;
    var u, v := Residual(x, dim, t, s), Residual(y, dim, t, r);
    assert u(d) == v(d);
  }

  lemma OutCongr(x: Tokens, y: Tokens, dim: int, t: nat, d: int)
    requires x.q == y.q && x.k == y.k && x.v == y.v && x.beta == y.beta
    requires forall r :: 0 <= r <= t ==> x.gate(r) == y.gate(r)
    ensures OutAt(x, dim, t)(d) == OutAt(y, dim, t)(d)
  {
    var s, r := StateAt(x, dim, t + 1), StateAt(y, dim, t + 1);
    forall e: int ensures s(d, e) == r(d, e) {
      StateCongr(x, y, dim, t + 1, d, e);
    }
    hide StateAt;
    DotCongr(0, dim, Row(s, d), Row(x.q, t), Row(r, d), Row(y.q, t));
  }

  // ---- Log gates -----------------------------------------------------------------

  const LOG_FLOOR: real := -1000000000.0

  /** log(g), clamped where the gate is not positive. */
  function LogGate(log: real -> real, g: real): real {
    if g <= 0.0 then LOG_FLOOR else log(g)
  }

  /** Log gates lg, and the exp that undoes them. */
  datatype Slice = Slice(exp: real -> real, dim: nat, q: Mat, k: Mat, v: Mat, lg: Vec, beta: Vec)

  ghost function Tok(x: Slice): Tokens {
    Tokens(x.q, x.k, x.v, t => x.exp(x.lg(t)), x.beta)
  }

  /** G_{a, n-1}: the product of the gates of tokens a .. n-1. */
  ghost function Prod(x: Slice, a: int, n: int): real { x.exp(Sum(a, n, x.lg)) }

  lemma ProdStep(x: Slice, a: int, n: int)
    requires IsExp(x.exp) && a <= n
    ensures Prod(x, a, n + 1) == Tok(x).gate(n) * Prod(x, a, n)
  {
    ExpSum(x.exp, Sum(a, n, x.lg), x.lg(n), Sum(a, n + 1, x.lg));
  }

  lemma ProdEmpty(x: Slice, a: int)
    requires IsExp(x.exp)
    ensures Prod(x, a, a) == 1.0
  {
    ExpZero(x.exp);
  }

  // ---- Closed form in a chunk ---------------------------------------------------

  /** u_j(d), the residual of token j. */
  ghost function Residuals(x: Slice, d: int): Vec {
    j => if j < 0 then 0.0 else Residual(Tok(x), x.dim, j, StateAt(Tok(x), x.dim, j))(d)
  }

  /** (G_{j+1, n-1} b_j) u_j: the weight of key j in the state after n tokens. */
  ghost function Weights(x: Slice, n: int, u: Vec): Vec {
    j => (Prod(x, j + 1, n) * x.beta(j)) * u(j)
  }

  ghost function Closed(x: Slice, lo: int, n: int, c: Mat, u: Vec, d: int): Vec {
    var w := Weights(x, n, u);
    e => Prod(x, lo, n) * c(d, e) + Dot(lo, n, w, Col(x.k, e))
  }

  /** One token on from the entry prev: gate it and add the residual's rank-one term. */
  ghost function Advance(x: Slice, n: int, u: real, e: int, prev: real): real {
    Tok(x).gate(n) * prev + (x.beta(n) * u) * x.k(n, e)
  }

  lemma ClosedStep(x: Slice, lo: int, n: int, c: Mat, u: Vec, d: int, e: int)
    requires IsExp(x.exp) && lo <= n
    ensures Closed(x, lo, n + 1, c, u, d)(e) == Advance(x, n, u(n), e, Closed(x, lo, n, c, u, d)(e))
  {
    var g, key := Tok(x).gate(n), Col(x.k, e);
    var w, w' := Weights(x, n, u), Weights(x, n + 1, u);
    forall j | lo <= j < n ensures w'(j) == g * w(j) {
      ProdStep(x, j + 1, n);
      Scale4(g, Prod(x, j + 1, n), x.beta(j), u(j));
    }
    DotScale(lo, n, g, w, w', key);
    ProdStep(x, lo, n);
    ProdEmpty(x, n + 1);
    assert Dot(lo, n + 1, w', key) == Dot(lo, n, w', key) + w'(n) * key(n);
    Gather(g, Prod(x, lo, n), c(d, e), Dot(lo, n, w, key));
  }

  lemma Scale4(g: real, p: real, b: real, u: real)
    ensures ((g * p) * b) * u == g * ((p * b) * u)
  {
  }

  lemma Gather(g: real, p: real, c: real, s: real)
    ensures (g * p) * c + g * s == g * (p * c + s)
  {
  }

  lemma StateStep(x: Slice, n: nat, d: int, e: int)
    ensures StateAt(Tok(x), x.dim, n + 1)(d, e) == Advance(x, n, Residuals(x, d)(n), e, StateAt(Tok(x), x.dim, n)(d, e))
  {
  }

  lemma ClosedStart(x: Slice, lo: int, c: Mat, u: Vec, d: int, e: int)
    requires IsExp(x.exp)
    ensures Closed(x, lo, lo, c, u, d)(e) == c(d, e)
  {
    ProdEmpty(x, lo);
    assert Dot(lo, lo, Weights(x, lo, u), Col(x.k, e)) == 0.0;
  }

  /** C_c: the recurrence unrolled over part of a chunk that starts at lo. */
  lemma {:induction false} ClosedForm(x: Slice, lo: nat, n: nat, d: int, e: int)
    requires IsExp(x.exp) && lo <= n
    ensures StateAt(Tok(x), x.dim, n)(d, e) == Closed(x, lo, n, StateAt(Tok(x), x.dim, lo), Residuals(x, d), d)(e)
    decreases n
  {
    var c, u := StateAt(Tok(x), x.dim, lo), Residuals(x, d);
    if n == lo {
      ClosedStart(x, lo, c, u, d, e);
    } else {
      hide StateAt, Closed, Residuals, Advance;
      var p := n - 1;
      ClosedForm(x, lo, p, d, e);
      ClosedStep(x, lo, p, c, u, d, e);
      StateStep(x, p, d, e);
    }
  }

  /** G_{j+1, n-1} b_j (k_j . y), the coefficient of u_j in a read with y. */
  ghost function Coef(x: Slice, n: int, y: Vec): Vec {
    j => (Prod(x, j + 1, n) * x.beta(j)) * Dot(0, x.dim, Row(x.k, j), y)
  }

  /** Reading the closed form with y: carried part plus the chunk's own part. */
  lemma ReadClosed(x: Slice, lo: int, n: int, c: Mat, u: Vec, d: int, y: Vec, row: Vec)
    requires lo <= n
    requires forall e :: 0 <= e < x.dim ==> row(e) == Closed(x, lo, n, c, u, d)(e)
    ensures Dot(0, x.dim, row, y) == Prod(x, lo, n) * Dot(0, x.dim, Row(c, d), y) + Dot(lo, n, Coef(x, n, y), u)
  {
    var p, w := Prod(x, lo, n), Weights(x, n, u);
    forall e | 0 <= e < x.dim ensures row(e) == p * Row(c, d)(e) + VecMat(w, lo, n, x.k)(e) {
      assert row(e) == Closed(x, lo, n, c, u, d)(e);
    }
    hide Closed, Prod, Weights, Coef, Dot;
    ReadRow(x.dim, p, Row(c, d), VecMat(w, lo, n, x.k), row, y);
    DotAssoc(w, lo, n, x.k, 0, x.dim, y);
    CoefSum(x, lo, n, u, y);
  }

  lemma ReadRow(dim: int, p: real, c: Vec, own: Vec, row: Vec, y: Vec)
    requires forall e :: 0 <= e < dim ==> row(e) == p * c(e) + own(e)
    ensures Dot(0, dim, row, y) == p * Dot(0, dim, c, y) + Dot(0, dim, own, y)
  {
    var carried := e => p * c(e);
    DotAdd(0, dim, carried, own, row, y);
    DotScale(0, dim, p, c, carried, y);
  }

  lemma CoefSum(x: Slice, lo: int, n: int, u: Vec, y: Vec)
    ensures Dot(lo, n, Weights(x, n, u), MatVec(x.k, 0, x.dim, y)) == Dot(lo, n, Coef(x, n, y), u)
  {
    hide Dot, Prod;
    var w, r, cf := Weights(x, n, u), MatVec(x.k, 0, x.dim, y), Coef(x, n, y);
    forall j | lo <= j < n ensures w(j) * r(j) == cf(j) * u(j) {
      Swap3(Prod(x, j + 1, n) * x.beta(j), u(j), Dot(0, x.dim, Row(x.k, j), y));
    }
    DotTerms(lo, n, w, r, cf, u);
  }

  lemma Swap3(a: real, b: real, c: real)
    ensures (a * b) * c == (a * c) * b
  {
  }

  /** The in-chunk solve: u_t = v_t - G_{0,t-1} C k_t - sum_j coef_j u_j. */
  lemma ResidualClosed(x: Slice, lo: nat, t: nat, d: int)
    requires IsExp(x.exp) && lo <= t
    ensures Residuals(x, d)(t)
         == x.v(t, d) - Prod(x, lo, t) * Dot(0, x.dim, Row(StateAt(Tok(x), x.dim, lo), d), Row(x.k, t))
          - Dot(lo, t, Coef(x, t, Row(x.k, t)), Residuals(x, d))
  {
    hide StateAt;
    var c, st, u := StateAt(Tok(x), x.dim, lo), StateAt(Tok(x), x.dim, t), Residuals(x, d);
    forall e | 0 <= e < x.dim ensures Row(st, d)(e) == Closed(x, lo, t, c, u, d)(e) {
      ClosedForm(x, lo, t, d, e);
    }
    assert u(t) == Residual(Tok(x), x.dim, t, st)(d);
    hide Closed, Prod, Coef;
    ReadClosed(x, lo, t, c, u, d, Row(x.k, t), Row(st, d));
  }

  /** The output combine: o_t = G_{0,t} C q_t + sum_{j<=t} coef_j u_j. */
  lemma OutClosed(x: Slice, lo: nat, t: nat, d: int)
    requires IsExp(x.exp) && lo <= t
    ensures OutAt(Tok(x), x.dim, t)(d)
         == Prod(x, lo, t + 1) * Dot(0, x.dim, Row(StateAt(Tok(x), x.dim, lo), d), Row(x.q, t))
          + Dot(lo, t + 1, Coef(x, t + 1, Row(x.q, t)), Residuals(x, d))
  {
    hide StateAt;
    var c, st, u := StateAt(Tok(x), x.dim, lo), StateAt(Tok(x), x.dim, t + 1), Residuals(x, d);
    forall e | 0 <= e < x.dim ensures Row(st, d)(e) == Closed(x, lo, t + 1, c, u, d)(e) {
      ClosedForm(x, lo, t + 1, d, e);
    }
    ReadClosed(x, lo, t + 1, c, u, d, Row(x.q, t), Row(st, d));
  }
}
