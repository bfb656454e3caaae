/** The scalar-gate rule against the per-dimension oracle given the same gate
    in every key dimension: exactly when the two coincide. */
module KdaRulesCompared {
  import opened Sums
  import opened KdaScalarAlgebra
  import Oracle = KdaRecurrence

  /** The oracle's tokens: gate_t repeated over the key dimensions. */
  ghost function Uniform(x: Tokens): Oracle.Tokens {
    var gate := x.gate;
    Oracle.Tokens(x.q, x.k, x.v, (t, e) => gate(t), x.beta)
  }

  ghost function OracleState(x: Tokens, dim: int, n: nat): Mat {
    Oracle.StateAt(Uniform(x), dim, Oracle.Zero(), n)
  }

  /** The two states agree (the oracle's is key-major). */
  ghost predicate Agree(dim: int, s: Mat, o: Mat) {
    forall d, e :: 0 <= d < dim && 0 <= e < dim ==> s(d, e) == o(e, d)
  }

  /** S k_t, what the ungated state predicts for value dimension d. */
  ghost function Predict(x: Tokens, dim: int, t: int, s: Mat): Vec {
    d => Dot(0, dim, Row(s, d), Row(x.k, t))
  }

  /** Token t does not tell the rules apart from state s. */
  ghost predicate Harmless(x: Tokens, dim: int, t: int, s: Mat) {
    || x.beta(t) == 0.0
    || x.gate(t) == 1.0
    || (forall e :: 0 <= e < dim ==> x.k(t, e) == 0.0)
    || (forall d :: 0 <= d < dim ==> Predict(x, dim, t, s)(d) == 0.0)
  }

  /** One token, from agreeing states: the new states differ by
      b (1 - g) (S k)_d k_e. */
  lemma OneStep(x: Tokens, dim: int, t: int, s: Mat, o: Mat, d: int, e: int)
    requires Agree(dim, s, o) && 0 <= d < dim && 0 <= e < dim
    ensures Oracle.Step(Uniform(x), dim, t, o)(e, d)
         == Step(x, dim, t, s)(d, e) + ((x.beta(t) * (1.0 - x.gate(t))) * Predict(x, dim, t, s)(d)) * x.k(t, e)
  {
    var g, k, p := x.gate(t), Row(x.k, t), Predict(x, dim, t, s)(d);
    var gated := Col(Oracle.Gated(Uniform(x), t, o), d);
    forall c | 0 <= c < dim ensures gated(c) == g * Row(s, d)(c) {
    }
    DotScale(0, dim, g, Row(s, d), gated, k);
    DotComm(0, dim, k, gated);
    Expand(x.beta(t), x.v(t, d), g, p, k(e));
    assert Oracle.Residual(Uniform(x), dim, t, o)(d) == x.beta(t) * (x.v(t, d) - g * p);
  }

  lemma Expand(b: real, v: real, g: real, p: real, k: real)
    ensures k * (b * (v - g * p)) == (b * (v - p)) * k + ((b * (1.0 - g)) * p) * k
  {
    assert b * (v - g * p) == b * (v - p) + (b * (1.0 - g)) * p;
  }

  lemma ProductZero(a: real, b: real)
    ensures a * b == 0.0 <==> a == 0.0 || b == 0.0
  {
  }

  /** Entry (d, e) survives token t exactly when its difference vanishes. */
  lemma EntryAgrees(x: Tokens, dim: int, t: int, s: Mat, o: Mat, d: int, e: int)
    requires Agree(dim, s, o) && 0 <= d < dim && 0 <= e < dim
    ensures Step(x, dim, t, s)(d, e) == Oracle.Step(Uniform(x), dim, t, o)(e, d)
       <==> (x.beta(t) == 0.0 || x.gate(t) == 1.0 || Predict(x, dim, t, s)(d) == 0.0 || x.k(t, e) == 0.0)
  {
    var c, p := x.beta(t) * (1.0 - x.gate(t)), Predict(x, dim, t, s)(d);
    OneStep(x, dim, t, s, o, d, e);
    ProductZero(c * p, x.k(t, e));
    ProductZero(c, p);
    ProductZero(x.beta(t), 1.0 - x.gate(t));
  }

  /** Agreement survives token t exactly when t is harmless. */
  lemma StepAgrees(x: Tokens, dim: int, t: int, s: Mat, o: Mat)
    requires Agree(dim, s, o)
    ensures Agree(dim, Step(x, dim, t, s), Oracle.Step(Uniform(x), dim, t, o)) <==> Harmless(x, dim, t, s)
  {
    hide Step, Oracle.Step, Predict, Dot;
    forall d, e | 0 <= d < dim && 0 <= e < dim
      ensures Step(x, dim, t, s)(d, e) == Oracle.Step(Uniform(x), dim, t, o)(e, d)
         <==> (x.beta(t) == 0.0 || x.gate(t) == 1.0 || Predict(x, dim, t, s)(d) == 0.0 || x.k(t, e) == 0.0)
    {
      EntryAgrees(x, dim, t, s, o, d, e);
    }
    if !Harmless(x, dim, t, s) {
      var d :| 0 <= d < dim && Predict(x, dim, t, s)(d) != 0.0;
      var e :| 0 <= e < dim && x.k(t, e) != 0.0;
      assert Step(x, dim, t, s)(d, e) != Oracle.Step(Uniform(x), dim, t, o)(e, d);
    }
  }

  ghost predicate AgreeAt(x: Tokens, dim: int, m: nat) { Agree(dim, StateAt(x, dim, m), OracleState(x, dim, m)) }

  ghost predicate HarmlessAt(x: Tokens, dim: int, t: nat) { Harmless(x, dim, t, StateAt(x, dim, t)) }

  lemma AgreeNext(x: Tokens, dim: int, t: nat)
    requires AgreeAt(x, dim, t)
    ensures AgreeAt(x, dim, t + 1) <==> HarmlessAt(x, dim, t)
  {
    hide Agree, Harmless, Step, Oracle.Step;
    StepAgrees(x, dim, t, StateAt(x, dim, t), OracleState(x, dim, t));
    StateNext(x, dim, t);
  }

  /** The rules keep equal states over a whole run exactly when every token has
      zero strength, unit gate, zero key or zero prediction. */
  lemma {:induction false} RulesAgreeIff(x: Tokens, dim: int, n: nat)
    ensures (forall m: nat :: m <= n ==> AgreeAt(x, dim, m)) <==> (forall t: nat :: t < n ==> HarmlessAt(x, dim, t))
  {
    if n == 0 {
      assert AgreeAt(x, dim, 0);
    } else {
      RulesAgreeIff(x, dim, n - 1);
      hide AgreeAt, HarmlessAt;
      if AgreeAt(x, dim, n - 1) {
        AgreeNext(x, dim, n - 1);
      }
    }
  }

  lemma StateNext(x: Tokens, dim: int, t: nat)
    ensures StateAt(x, dim, t + 1) == Step(x, dim, t, StateAt(x, dim, t))
    ensures OracleState(x, dim, t + 1) == Oracle.Step(Uniform(x), dim, t, OracleState(x, dim, t))
  {
  }

  /** From agreeing states the outputs agree. */
  lemma OutsFromStates(x: Tokens, dim: int, t: nat, d: int)
    requires AgreeAt(x, dim, t + 1) && 0 <= d < dim
    ensures OutsAgree(x, dim, t, d)
  {
    hide StateAt, Oracle.StateAt;
    var s, o := StateAt(x, dim, t + 1), OracleState(x, dim, t + 1);
    DotComm(0, dim, Row(s, d), Row(x.q, t));
    DotCongr(0, dim, Row(x.q, t), Row(s, d), Row(x.q, t), Col(o, d));
    hide Dot;
  }

  /** Value d of output row t is the same under both rules. */
  ghost predicate OutsAgree(x: Tokens, dim: int, t: nat, d: int) {
    OutAt(x, dim, t)(d) == Oracle.OutAt(Uniform(x), dim, Oracle.Zero(), t)(d)
  }

  ghost predicate UnitAfterFirst(gate: Vec, n: nat) { forall t: nat :: 1 <= t < n ==> gate(t) == 1.0 }

  /** Unit gates after the first keep the states equal: the first token reads the
      zero state, so its gate is never seen. */
  lemma UnitGates(x: Tokens, dim: int, n: nat, m: nat)
    requires UnitAfterFirst(x.gate, n) && m <= n
    ensures AgreeAt(x, dim, m)
  {
    forall t: nat | t < n ensures HarmlessAt(x, dim, t) {
      if t == 0 { ZeroPredicts(x, dim); }
    }
    hide HarmlessAt, AgreeAt;
    RulesAgreeIff(x, dim, n);
  }

  lemma ZeroPredicts(x: Tokens, dim: int)
    ensures HarmlessAt(x, dim, 0)
  {
    var s := StateAt(x, dim, 0);
    forall d ensures Predict(x, dim, 0, s)(d) == 0.0 {
      DotZero(0, dim, Row(s, d), Row(x.k, 0));
    }
  }

  /** Ones everywhere in dimension 1, written at tokens t - 1 and t only. */
  ghost function Pulse(gate: Vec, t: nat): Tokens {
    Tokens((i, e) => 1.0, (i, e) => 1.0, (i, e) => 1.0, gate, i => if t - 1 <= i <= t then 1.0 else 0.0)
  }

  /** In dimension 1 a token is two numbers' step: here the scalar rule's, then the oracle's. */
  lemma OneScalar(x: Tokens, t: nat)
    ensures StateAt(x, 1, t + 1)(0, 0) == x.gate(t) * StateAt(x, 1, t)(0, 0)
      + (x.beta(t) * (x.v(t, 0) - StateAt(x, 1, t)(0, 0) * x.k(t, 0))) * x.k(t, 0)
    ensures OutAt(x, 1, t)(0) == StateAt(x, 1, t + 1)(0, 0) * x.q(t, 0)
  {
    var s := StateAt(x, 1, t);
    StateNext(x, 1, t);
    DotOne(Row(s, 0), Row(x.k, t));
    DotOne(Row(StateAt(x, 1, t + 1), 0), Row(x.q, t));
    hide Dot, StateAt, OracleState, Oracle.StateAt, Oracle.Step;
  }

  lemma OneOracle(x: Tokens, t: nat)
    ensures OracleState(x, 1, t + 1)(0, 0) == x.gate(t) * OracleState(x, 1, t)(0, 0)
      + x.k(t, 0) * (x.beta(t) * (x.v(t, 0) - x.k(t, 0) * (x.gate(t) * OracleState(x, 1, t)(0, 0))))
    ensures Oracle.OutAt(Uniform(x), 1, Oracle.Zero(), t)(0) == x.q(t, 0) * OracleState(x, 1, t + 1)(0, 0)
  {
    var y, o := Uniform(x), OracleState(x, 1, t);
    StateNext(x, 1, t);
    DotOne(Row(y.k, t), Col(Oracle.Gated(y, t, o), 0));
    DotOne(Row(y.q, t), Col(OracleState(x, 1, t + 1), 0));
    hide Dot, StateAt, Step, Oracle.StateAt;
  }

  /** Nothing is written before token t - 1. */
  lemma {:induction false} PulseStarts(gate: Vec, t: nat, m: nat)
    requires m < t
    ensures StateAt(Pulse(gate, t), 1, m)(0, 0) == 0.0 && OracleState(Pulse(gate, t), 1, m)(0, 0) == 0.0
  {
    if m > 0 {
      PulseStarts(gate, t, m - 1);
      OneScalar(Pulse(gate, t), m - 1);
      OneOracle(Pulse(gate, t), m - 1);
      hide StateAt, OracleState;
    }
  }

  /** Output t of the pulse is gate_t under one rule and 1 under the other. */
  lemma PulseTells(gate: Vec, t: nat)
    requires t > 0
    ensures OutAt(Pulse(gate, t), 1, t)(0) == gate(t)
    ensures Oracle.OutAt(Uniform(Pulse(gate, t)), 1, Oracle.Zero(), t)(0) == 1.0
  {
    var x := Pulse(gate, t);
    PulseStarts(gate, t, t - 1);
    OneScalar(x, t - 1);
    OneOracle(x, t - 1);
    OneScalar(x, t);
    OneOracle(x, t);
    hide StateAt, OracleState, OutAt, Oracle.OutAt;
  }

  /** For a given sequence of gates, the two rules give the same n output rows on
      every query, key, value, strength and dimension exactly when every gate
      after the first is 1. */
  lemma OutputsAgreeIff(gate: Vec, n: nat)
    ensures (forall q: Mat, k: Mat, v: Mat, beta: Vec, dim: nat, t: nat, d: nat ::
               t < n && d < dim ==> OutsAgree(Tokens(q, k, v, gate, beta), dim, t, d))
       <==> UnitAfterFirst(gate, n)
  {
    hide StateAt, OracleState, OutAt, Oracle.OutAt;
    if UnitAfterFirst(gate, n) {
      forall q: Mat, k: Mat, v: Mat, beta: Vec, dim: nat, t: nat, d: nat | t < n && d < dim
        ensures OutsAgree(Tokens(q, k, v, gate, beta), dim, t, d)
      {
        UnitGates(Tokens(q, k, v, gate, beta), dim, n, t + 1);
        OutsFromStates(Tokens(q, k, v, gate, beta), dim, t, d);
      }
    } else {
      var t: nat :| 1 <= t < n && gate(t) != 1.0;
      PulseTells(gate, t);
      var x := Pulse(gate, t);
      assert !OutsAgree(Tokens(x.q, x.k, x.v, gate, x.beta), 1, t, 0);
    }
  }

  lemma DotOne(f: Vec, g: Vec)
    ensures Dot(0, 1, f, g) == f(0) * g(0)
  {
    assert Dot(0, 1, f, g) == Sum(0, 0, i => f(i) * g(i)) + f(0) * g(0);
  }
}
