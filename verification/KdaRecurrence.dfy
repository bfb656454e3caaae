/** The delta rule with per-key-dimension gates, token by token: the reference
    recurrence, and the imperative oracle loop that computes it. One (batch,
    head) slice; the state is key-major, S(e, d). */
module KdaRecurrence {
  import opened Sums

  /** gate is the multiplicative gate; beta the write strength. */
  datatype Tokens = Tokens(q: Mat, k: Mat, v: Mat, gate: Mat, beta: Vec)

  ghost function Gated(x: Tokens, t: int, s: Mat): Mat { (e, d) => x.gate(t, e) * s(e, d) }

  /** beta_t (v_t - k_t S'), S' the gated state. */
  ghost function Residual(x: Tokens, kd: int, t: int, s: Mat): Vec {
    var gated := Gated(x, t, s);
    d => x.beta(t) * (x.v(t, d) - Dot(0, kd, Row(x.k, t), Col(gated, d)))
  }

  ghost function Step(x: Tokens, kd: int, t: int, s: Mat): Mat {
    var gated, u := Gated(x, t, s), Residual(x, kd, t, s);
    (e, d) => gated(e, d) + x.k(t, e) * u(d)
  }

  /** The state after the first t tokens. */
  ghost function StateAt(x: Tokens, kd: int, s0: Mat, t: nat): Mat {
    if t == 0 then s0 else Step(x, kd, t - 1, StateAt(x, kd, s0, t - 1))
  }

  /** Output row t: the state after token t, read with q_t. */
  ghost function OutAt(x: Tokens, kd: int, s0: Mat, t: nat): Vec {
    var s := StateAt(x, kd, s0, t + 1);
    d => Dot(0, kd, Row(x.q, t), Col(s, d))
  }

  /** Token t is the same in both streams, on kd keys and vd values. */
  ghost predicate SameToken(x: Tokens, y: Tokens, kd: int, vd: int, t: int) {
    && x.beta(t) == y.beta(t)
    && (forall e :: 0 <= e < kd ==> x.q(t, e) == y.q(t, e) && x.k(t, e) == y.k(t, e) && x.gate(t, e) == y.gate(t, e))
    && (forall d :: 0 <= d < vd ==> x.v(t, d) == y.v(t, d))
  }

  lemma StepCongr(x: Tokens, y: Tokens, kd: int, vd: int, t: int, s: Mat, s': Mat, e: int, d: int)
    requires SameToken(x, y, kd, vd, t) && 0 <= e < kd && 0 <= d < vd
    requires forall c :: 0 <= c < kd ==> s(c, d) == s'(c, d)
    ensures Step(x, kd, t, s)(e, d) == Step(y, kd, t, s')(e, d)
  {
    DotCongr(0, kd, Row(x.k, t), Col(Gated(x, t, s), d), Row(y.k, t), Col(Gated(y, t, s'), d));
  }

  lemma {:induction false} StateCongr(x: Tokens, y: Tokens, kd: int, vd: int, s0: Mat, n: nat, e: int, d: int)
    requires forall t :: 0 <= t < n ==> SameToken(x, y, kd, vd, t)
    requires 0 <= e < kd && 0 <= d < vd
    ensures StateAt(x, kd, s0, n)(e, d) == StateAt(y, kd, s0, n)(e, d)
  {
    if n > 0 {
      var s, s' := StateAt(x, kd, s0, n - 1), StateAt(y, kd, s0, n - 1);
      forall c | 0 <= c < kd ensures s(c, d) == s'(c, d) {
        StateCongr(x, y, kd, vd, s0, n - 1, c, d);
      }
      StepCongr(x, y, kd, vd, n - 1, s, s', e, d);
    }
  }

  lemma OutCongr(x: Tokens, y: Tokens, kd: int, vd: int, s0: Mat, t: nat, d: int)
    requires forall r :: 0 <= r <= t ==> SameToken(x, y, kd, vd, r)
    requires 0 <= d < vd
    ensures OutAt(x, kd, s0, t)(d) == OutAt(y, kd, s0, t)(d)
  {
    var s, s' := StateAt(x, kd, s0, t + 1), StateAt(y, kd, s0, t + 1);
    forall e | 0 <= e < kd ensures s(e, d) == s'(e, d) {
      StateCongr(x, y, kd, vd, s0, t + 1, e, d);
    }
    assert SameToken(x, y, kd, vd, t);
    DotCongr(0, kd, Row(x.q, t), Col(s, d), Row(y.q, t), Col(s', d));
  }

  // ---- Rectangular data ------------------------------------------------------

  predicate Rect(s: seq<seq<real>>, rows: nat, cols: nat) {
    |s| == rows && forall i :: 0 <= i < rows ==> |s[i]| == cols
  }

  /** s as a matrix, zero outside its bounds. */
  ghost function AsMat(s: seq<seq<real>>): Mat {
    (i, j) => if 0 <= i < |s| && 0 <= j < |s[i]| then s[i][j] else 0.0
  }

  ghost function AsVec(s: seq<real>): Vec {
    i => if 0 <= i < |s| then s[i] else 0.0
  }

  ghost function TokensOf(q: seq<seq<real>>, k: seq<seq<real>>, v: seq<seq<real>>, g: seq<seq<real>>, beta: seq<real>): Tokens {
    Tokens(AsMat(q), AsMat(k), AsMat(v), AsMat(g), AsVec(beta))
  }

  // ---- The oracle loop ---------------------------------------------------------

  ghost function Zero(): Mat { (e, d) => 0.0 }

  /** The value-major buffer a stores the key-major state s. */
  ghost predicate HoldsT(a: array2<real>, s: Mat)
    reads a
  {
    forall d, e :: 0 <= d < a.Length0 && 0 <= e < a.Length1 ==> a[d, e] == s(e, d)
  }

  /** sum_e row[e] * y[e]. */
  method RowDot(state: array2<real>, d: nat, y: seq<real>, ghost s: Mat, ghost m: Mat, ghost t: int) returns (r: real)
    requires d < state.Length0 && |y| == state.Length1
    requires forall e :: 0 <= e < |y| ==> state[d, e] == s(e, d) && y[e] == m(t, e)
    ensures r == Dot(0, |y|, Row(m, t), Col(s, d))
  {
    r := 0.0;
    for e := 0 to |y|
      invariant r == Dot(0, e, Row(m, t), Col(s, d))
    {
      r := r + state[d, e] * y[e];
    }
  }

  /** state *= g_t, one factor per key dimension. */
  method ApplyGate(state: array2<real>, g: seq<real>, ghost x: Tokens, ghost t: nat, ghost s: Mat)
    requires |g| == state.Length1 && HoldsT(state, s)
    requires forall e :: 0 <= e < |g| ==> g[e] == x.gate(t, e)
    modifies state
    ensures HoldsT(state, Gated(x, t, s))
  {
    for d := 0 to state.Length0
      invariant forall a, e :: 0 <= a < state.Length0 && 0 <= e < state.Length1 ==>
        state[a, e] == if a < d then Gated(x, t, s)(e, a) else s(e, a)
    {
      for e := 0 to state.Length1
        invariant forall a, c :: 0 <= a < state.Length0 && 0 <= c < state.Length1 ==>
          state[a, c] == if a < d || (a == d && c < e) then Gated(x, t, s)(c, a) else s(c, a)
      {
        state[d, e] := state[d, e] * g[e];
      }
    }
  }

  /** state[d] += beta * u * k, for one value row. */
  method WriteRow(state: array2<real>, d: nat, k: seq<real>, w: real, ghost x: Tokens, ghost t: nat, ghost kd: int, ghost s: Mat)
    requires d < state.Length0 && |k| == state.Length1
    requires w == Residual(x, kd, t, s)(d)
    requires forall e :: 0 <= e < |k| ==> k[e] == x.k(t, e) && state[d, e] == Gated(x, t, s)(e, d)
    modifies state
    ensures forall a, e :: 0 <= a < state.Length0 && 0 <= e < state.Length1 ==>
      state[a, e] == if a == d then Step(x, kd, t, s)(e, d) else old(state[a, e])
  {
    for e := 0 to state.Length1
      invariant forall a, c :: 0 <= a < state.Length0 && 0 <= c < state.Length1 ==>
        state[a, c] == if a == d && c < e then Step(x, kd, t, s)(c, d) else old(state[a, c])
    {
      state[d, e] := state[d, e] + w * k[e];
    }
  }

  /** The rows and write strength of token t. */
  ghost predicate IsToken(x: Tokens, t: int, q: seq<real>, k: seq<real>, v: seq<real>, g: seq<real>, beta: real)
    requires |q| == |k| == |v| == |g|
  {
    beta == x.beta(t) &&
    forall e :: 0 <= e < |q| ==> q[e] == x.q(t, e) && k[e] == x.k(t, e) && v[e] == x.v(t, e) && g[e] == x.gate(t, e)
  }

  lemma TokenRow(q: seq<seq<real>>, k: seq<seq<real>>, v: seq<seq<real>>, g: seq<seq<real>>, beta: seq<real>, dim: nat, t: nat)
    requires Rect(q, |q|, dim) && Rect(k, |q|, dim) && Rect(v, |q|, dim) && Rect(g, |q|, dim) && |beta| == |q|
    requires t < |q|
    ensures IsToken(TokensOf(q, k, v, g, beta), t, q[t], k[t], v[t], g[t], beta[t])
  {
  }

  lemma ResidualAt(x: Tokens, kd: int, t: int, s: Mat, d: int)
    ensures Residual(x, kd, t, s)(d) == x.beta(t) * (x.v(t, d) - Dot(0, kd, Row(x.k, t), Col(Gated(x, t, s), d)))
  {
  }

  /** One token of the oracle: gate, predict for every row, then write and read. */
  method TokenStep(state: array2<real>, out: array2<real>, t: nat, q: seq<real>, k: seq<real>, v: seq<real>, g: seq<real>, beta: real, ghost x: Tokens, ghost s: Mat)
    requires state != out && state.Length0 == state.Length1 == out.Length1 && t < out.Length0
    requires |q| == |k| == |v| == |g| == state.Length0
    requires IsToken(x, t, q, k, v, g, beta) && HoldsT(state, s)
    modifies state, out
    ensures HoldsT(state, Step(x, state.Length0, t, s))
    ensures forall r, d :: 0 <= r < out.Length0 && 0 <= d < out.Length1 ==>
      out[r, d] == if r == t then Dot(0, state.Length0, Row(x.q, t), Col(Step(x, state.Length0, t, s), d)) else old(out[r, d])
  {
    hide Dot, Step, Gated;
    var dim := state.Length0;
    ghost var gated, next := Gated(x, t, s), Step(x, dim, t, s);
    ApplyGate(state, g, x, t, s);
    var a := new real[dim];
    for d := 0 to dim
      modifies a
      invariant forall c :: 0 <= c < d ==> a[c] == Dot(0, dim, Row(x.k, t), Col(gated, c))
    {
      var r := RowDot(state, d, k, gated, x.k, t);
      a[d] := r;
    }
    for d := 0 to dim
      modifies state, out
      invariant forall c, e :: 0 <= c < dim && 0 <= e < dim ==>
        state[c, e] == if c < d then next(e, c) else gated(e, c)
      invariant forall r, c :: 0 <= r < out.Length0 && 0 <= c < out.Length1 ==>
        out[r, c] == if r == t && c < d then Dot(0, dim, Row(x.q, t), Col(next, c)) else old(out[r, c])
    {
      var ud := v[d] - a[d];
      ResidualAt(x, dim, t, s, d);
      WriteRow(state, d, k, beta * ud, x, t, dim, s);
      var r := RowDot(state, d, q, next, x.q, t);
      out[t, d] := r;
    }
  }

  /** The first n output rows are those of the recurrence. */
  ghost predicate OutRows(out: array2<real>, x: Tokens, kd: int, s0: Mat, n: int)
    reads out
  {
    forall t: nat, d :: t < n && t < out.Length0 && 0 <= d < out.Length1 ==> out[t, d] == OutAt(x, kd, s0, t)(d)
  }

  /** The oracle's loop body: token t of the rows given. */
  method OracleToken(q: seq<seq<real>>, k: seq<seq<real>>, v: seq<seq<real>>, g: seq<seq<real>>, beta: seq<real>, dim: nat, t: nat, state: array2<real>, out: array2<real>)
    requires Rect(q, |q|, dim) && Rect(k, |q|, dim) && Rect(v, |q|, dim) && Rect(g, |q|, dim) && |beta| == |q|
    requires t < |q| == out.Length0 && out.Length1 == dim == state.Length0 == state.Length1 && state != out
    requires HoldsT(state, StateAt(TokensOf(q, k, v, g, beta), dim, Zero(), t))
    requires OutRows(out, TokensOf(q, k, v, g, beta), dim, Zero(), t)
    modifies state, out
    ensures HoldsT(state, StateAt(TokensOf(q, k, v, g, beta), dim, Zero(), t + 1))
    ensures OutRows(out, TokensOf(q, k, v, g, beta), dim, Zero(), t + 1)
  {
    hide StateAt, OutAt, Step, Dot, TokensOf;
    ghost var x := TokensOf(q, k, v, g, beta);
    TokenRow(q, k, v, g, beta, dim, t);
    TokenStep(state, out, t, q[t], k[t], v[t], g[t], beta[t], x, StateAt(x, dim, Zero(), t));
    NextRow(x, dim, Zero(), t);
  }

  /** The per-token oracle on one slice, from a zero state. */
  method NaiveForward(q: seq<seq<real>>, k: seq<seq<real>>, v: seq<seq<real>>, g: seq<seq<real>>, beta: seq<real>, dim: nat, out: array2<real>)
    requires Rect(q, |q|, dim) && Rect(k, |q|, dim) && Rect(v, |q|, dim) && Rect(g, |q|, dim) && |beta| == |q|
    requires out.Length0 == |q| && out.Length1 == dim
    modifies out
    ensures OutRows(out, TokensOf(q, k, v, g, beta), dim, Zero(), |q|)
  {
    var state := new real[dim, dim]((d, e) => 0.0);
    assert HoldsT(state, StateAt(TokensOf(q, k, v, g, beta), dim, Zero(), 0));
    hide StateAt, OutAt, TokensOf;
    for t := 0 to |q|
      modifies state, out
      invariant HoldsT(state, StateAt(TokensOf(q, k, v, g, beta), dim, Zero(), t))
      invariant OutRows(out, TokensOf(q, k, v, g, beta), dim, Zero(), t)
    {
      OracleToken(q, k, v, g, beta, dim, t, state, out);
    }
  }

  lemma NextRow(x: Tokens, kd: int, s0: Mat, t: nat)
    ensures StateAt(x, kd, s0, t + 1) == Step(x, kd, t, StateAt(x, kd, s0, t))
    ensures forall d :: OutAt(x, kd, s0, t)(d) == Dot(0, kd, Row(x.q, t), Col(Step(x, kd, t, StateAt(x, kd, s0, t)), d))
  {
  }
}
