/** The two delta rules written out in the arrays given, with no token stream between. */
module KdaFormula {
  import opened ExpLaws
  import opened Sums
  import opened RealArith
  import Oracle = KdaRecurrence
  import Chunked = KdaChunk
  import Pipeline = KdaScalar
  import LowerInverse
  import Scalar = KdaScalarAlgebra

  /** Entry (i, j), zero outside the rows. */
  function Entry(m: seq<seq<real>>, i: int, j: int): real {
    if 0 <= i < |m| && 0 <= j < |m[i]| then m[i][j] else 0.0
  }

  function Entries(m: seq<seq<real>>): Mat { (i, j) => Entry(m, i, j) }

  /** exp of every log gate. */
  function ExpEntries(exp: real -> real, m: seq<seq<real>>): Mat { (i, j) => exp(Entry(m, i, j)) }

  /** Key-major: token t gates the state's key rows, and adds to entry (e, d) its key e
      times beta times what v_d lacks of the gated state's prediction. */
  ghost predicate GatedStep(s: Mat, s2: Mat, gate: Vec, k: Vec, v: Vec, beta: real, kd: nat, vd: nat) {
    forall e: nat, d: nat :: e < kd && d < vd ==>
      s2(e, d) == Times(gate(e), s(e, d))
        + Times(k(e), Times(beta, v(d) - Sum(0, kd, c => Times(k(c), Times(gate(c), s(c, d))))))
  }

  /** states(0) is `initial`, and each token of the rows steps it; the gate of token t in
      key dimension e is gate(t, e). */
  ghost predicate GatedStates(states: nat -> Mat, initial: Mat, gate: Mat, k: seq<seq<real>>, v: seq<seq<real>>, beta: seq<real>,
                              kd: nat, vd: nat) {
    && (forall e: nat, d: nat :: e < kd && d < vd ==> states(0)(e, d) == initial(e, d))
    && forall t: nat :: t < |k| && t < |beta| ==>
      GatedStep(states(t), states(t + 1), e => gate(t, e), e => Entry(k, t, e), d => Entry(v, t, d), beta[t], kd, vd)
  }

  lemma DotTimes(n: int, f: Vec, g: Vec, h: Vec)
    requires forall c :: 0 <= c < n ==> h(c) == Times(f(c), g(c))
    ensures Dot(0, n, f, g) == Sum(0, n, h)
  {
    SumCongr(0, n, i => f(i) * g(i), h);
  }

  lemma OracleStep(x: Oracle.Tokens, kd: nat, t: nat, s: Mat, e: int, d: int)
    ensures Oracle.Step(x, kd, t, s)(e, d) == Times(x.gate(t, e), s(e, d))
      + Times(x.k(t, e), Times(x.beta(t), x.v(t, d) - Dot(0, kd, Row(x.k, t), Col(Oracle.Gated(x, t, s), d))))
  {
    hide Dot;
  }

  /** Token t of x is row t of the arrays. */
  ghost predicate TokenIs(x: Oracle.Tokens, gate: Mat, k: seq<seq<real>>, v: seq<seq<real>>, beta: seq<real>, t: nat) {
    && t < |k| && t < |beta| && x.beta(t) == beta[t]
    && forall e: int :: x.gate(t, e) == gate(t, e) && x.k(t, e) == Entry(k, t, e) && x.v(t, e) == Entry(v, t, e)
  }

  lemma StepIs(x: Oracle.Tokens, kd: nat, vd: nat, t: nat, s: Mat, r: Mat, r2: Mat, gate: Mat, k: seq<seq<real>>,
               v: seq<seq<real>>, beta: seq<real>, e: nat, d: nat)
    requires TokenIs(x, gate, k, v, beta, t) && e < kd && d < vd
    requires forall c: nat :: c < kd ==> s(c, d) == r(c, d)
    requires GatedStep(r, r2, c => gate(t, c), c => Entry(k, t, c), c => Entry(v, t, c), beta[t], kd, vd)
    ensures Oracle.Step(x, kd, t, s)(e, d) == r2(e, d)
  {
    OracleStep(x, kd, t, s, e, d);
    var f, g, h := Row(x.k, t), Col(Oracle.Gated(x, t, s), d), c => Times(Entry(k, t, c), Times(gate(t, c), r(c, d)));
    forall c | 0 <= c < kd ensures h(c) == Times(f(c), g(c)) {
      assert g(c) == Times(x.gate(t, c), s(c, d));
    }
    DotTimes(kd, f, g, h);
    hide Dot, Times, Oracle.Step, Entry;
    var own := c => Times((i => Entry(k, t, i))(c), Times((i => gate(t, i))(c), r(c, d)));
    forall c | 0 <= c < kd ensures own(c) == h(c) { }
    SumCongr(0, kd, own, h);
  }

  lemma {:induction false} StatesAre(x: Oracle.Tokens, kd: nat, vd: nat, s0: Mat, states: nat -> Mat, gate: Mat,
                                     k: seq<seq<real>>, v: seq<seq<real>>, beta: seq<real>, n: nat, e: nat, d: nat)
    requires GatedStates(states, s0, gate, k, v, beta, kd, vd) && e < kd && d < vd
    requires forall t: nat :: t < n ==> TokenIs(x, gate, k, v, beta, t)
    ensures Oracle.StateAt(x, kd, s0, n)(e, d) == states(n)(e, d)
  {
    hide GatedStates, TokenIs, Oracle.StateAt;
    if n == 0 {
      StartIs(x, kd, vd, s0, states, gate, k, v, beta, e, d);
    } else {
      var s, r := Oracle.StateAt(x, kd, s0, n - 1), states(n - 1);
      forall c: nat | c < kd ensures s(c, d) == r(c, d) {
        StatesAre(x, kd, vd, s0, states, gate, k, v, beta, n - 1, c, d);
      }
      NextIs(x, kd, vd, s0, states, gate, k, v, beta, n - 1, e, d);
    }
  }

  lemma NextIs(x: Oracle.Tokens, kd: nat, vd: nat, s0: Mat, states: nat -> Mat, gate: Mat,
               k: seq<seq<real>>, v: seq<seq<real>>, beta: seq<real>, t: nat, e: nat, d: nat)
    requires GatedStates(states, s0, gate, k, v, beta, kd, vd) && e < kd && d < vd && TokenIs(x, gate, k, v, beta, t)
    requires forall c: nat :: c < kd ==> Oracle.StateAt(x, kd, s0, t)(c, d) == states(t)(c, d)
    ensures Oracle.StateAt(x, kd, s0, t + 1)(e, d) == states(t + 1)(e, d)
  {
    var s := Oracle.StateAt(x, kd, s0, t);
    assert Oracle.StateAt(x, kd, s0, t + 1) == Oracle.Step(x, kd, t, s);
    RowInside(x, gate, k, v, beta, t);
    hide GatedStates, GatedStep, TokenIs, Oracle.Step, Oracle.StateAt;
    NextStep(states, s0, gate, k, v, beta, kd, vd, t);
    StepIs(x, kd, vd, t, s, states(t), states(t + 1), gate, k, v, beta, e, d);
  }

  lemma StartIs(x: Oracle.Tokens, kd: nat, vd: nat, s0: Mat, states: nat -> Mat, gate: Mat,
                k: seq<seq<real>>, v: seq<seq<real>>, beta: seq<real>, e: nat, d: nat)
    requires GatedStates(states, s0, gate, k, v, beta, kd, vd) && e < kd && d < vd
    ensures Oracle.StateAt(x, kd, s0, 0)(e, d) == states(0)(e, d)
  {
    hide GatedStep;
  }

  lemma RowInside(x: Oracle.Tokens, gate: Mat, k: seq<seq<real>>, v: seq<seq<real>>, beta: seq<real>, t: nat)
    requires TokenIs(x, gate, k, v, beta, t)
    ensures t < |k| && t < |beta|
  {
  }

  lemma NextStep(states: nat -> Mat, s0: Mat, gate: Mat, k: seq<seq<real>>, v: seq<seq<real>>, beta: seq<real>,
                 kd: nat, vd: nat, t: nat)
    requires GatedStates(states, s0, gate, k, v, beta, kd, vd) && t < |k| && t < |beta|
    ensures GatedStep(states(t), states(t + 1), c => gate(t, c), c => Entry(k, t, c), c => Entry(v, t, c), beta[t], kd, vd)
  {
    hide GatedStep, Entry;
  }

  /** Output t is the state after token t, read with row t of q. */
  lemma RowsAre(x: Oracle.Tokens, kd: nat, vd: nat, s0: Mat, states: nat -> Mat, gate: Mat, k: seq<seq<real>>,
                v: seq<seq<real>>, beta: seq<real>, t: nat, d: nat)
    requires GatedStates(states, s0, gate, k, v, beta, kd, vd) && d < vd
    requires forall r: nat :: r <= t ==> TokenIs(x, gate, k, v, beta, r)
    ensures var s := states(t + 1); Oracle.OutAt(x, kd, s0, t)(d) == Sum(0, kd, e => Times(x.q(t, e), s(e, d)))
  {
    var s := Oracle.StateAt(x, kd, s0, t + 1);
    hide GatedStates, TokenIs, Oracle.StateAt;
    var r := states(t + 1);
    var h := e => Times(x.q(t, e), r(e, d));
    forall e | 0 <= e < kd ensures h(e) == Times(Row(x.q, t)(e), Col(s, d)(e)) {
      StatesAre(x, kd, vd, s0, states, gate, k, v, beta, t + 1, e, d);
    }
    DotTimes(kd, Row(x.q, t), Col(s, d), h);
  }

  /** What kda_delta_rule_naive leaves in `out`. */
  lemma NaiveFormula(q: seq<seq<real>>, k: seq<seq<real>>, v: seq<seq<real>>, g: seq<seq<real>>, beta: seq<real>, dim: nat,
                     out: array2<real>, states: nat -> Mat, t: nat, d: nat)
    requires |k| == |beta| == |q| && t < |q| == out.Length0 && d < dim == out.Length1
    requires Oracle.OutRows(out, Oracle.TokensOf(q, k, v, g, beta), dim, Oracle.Zero(), |q|)
    requires GatedStates(states, (_, _) => 0.0, Entries(g), k, v, beta, dim, dim)
    ensures var s := states(t + 1); out[t, d] == Sum(0, dim, e => Times(Entry(q, t, e), s(e, d)))
  {
    var x, s0, zero: Mat := Oracle.TokensOf(q, k, v, g, beta), Oracle.Zero(), (_, _) => 0.0;
    var gate := Entries(g);
    assert GatedStates(states, s0, gate, k, v, beta, dim, dim) by { SameStart(states, zero, s0, gate, k, v, beta, dim, dim); }
    hide GatedStates;
    forall r: nat | r <= t ensures TokenIs(x, gate, k, v, beta, r) { }
    RowsAre(x, dim, dim, s0, states, gate, k, v, beta, t, d);
    hide TokenIs, Oracle.OutAt;
    var s := states(t + 1);
    SumCongr(0, dim, e => Times(x.q(t, e), s(e, d)), e => Times(Entry(q, t, e), s(e, d)));
  }

  lemma SameStart(states: nat -> Mat, a: Mat, b: Mat, gate: Mat, k: seq<seq<real>>, v: seq<seq<real>>, beta: seq<real>,
                  kd: nat, vd: nat)
    requires GatedStates(states, a, gate, k, v, beta, kd, vd) && forall e: int, d: int :: a(e, d) == b(e, d)
    ensures GatedStates(states, b, gate, k, v, beta, kd, vd)
  {
    hide GatedStep;
  }

  lemma ReferenceRow(exp: real -> real, scale: real, q: seq<seq<real>>, k: seq<seq<real>>, v: seq<seq<real>>,
                     g: seq<seq<real>>, beta: seq<real>, t: nat)
    requires |k| == |beta| == |q| && t < |q|
    ensures var x := Chunked.Reference(exp, scale, q, k, v, g, beta);
      TokenIs(x, ExpEntries(exp, g), k, v, beta, t) && forall e: int :: x.q(t, e) == Times(Entry(q, t, e), scale)
  {
    forall e: int ensures Oracle.AsMat(Chunked.ScaleRows(q, scale))(t, e) == Times(Entry(q, t, e), scale) {
      assert Oracle.AsMat(Chunked.ScaleRows(q, scale))(t, e) == Times(Oracle.AsMat(q)(t, e), scale);
    }
    hide Chunked.ScaleRows;
    forall e: int ensures Oracle.AsMat(g)(t, e) == Entry(g, t, e) { }
  }

  /** What _kda_chunk_ref returns, whatever the chunk size: log gates exponentiated, q
      scaled, from the initial state given. */
  lemma ChunkFormula(exp: real -> real, scale: real, kd: nat, vd: nat, q: seq<seq<real>>, k: seq<seq<real>>, v: seq<seq<real>>,
                     g: seq<seq<real>>, beta: seq<real>, initial: seq<seq<real>>, out: array2<real>, states: nat -> Mat,
                     t: nat, d: nat)
    requires |k| == |beta| == |q| == out.Length0 && out.Length1 == vd && t < |q| && d < vd
    requires Oracle.OutRows(out, Chunked.Reference(exp, scale, q, k, v, g, beta), kd, Oracle.AsMat(initial), |q|)
    requires GatedStates(states, Entries(initial), ExpEntries(exp, g), k, v, beta, kd, vd)
    ensures var s := states(t + 1); out[t, d] == Sum(0, kd, e => Times(Times(Entry(q, t, e), scale), s(e, d)))
  {
    var x, s0 := Chunked.Reference(exp, scale, q, k, v, g, beta), Oracle.AsMat(initial);
    var gate := ExpEntries(exp, g);
    SameStart(states, Entries(initial), s0, gate, k, v, beta, kd, vd);
    hide GatedStates, TokenIs, Oracle.OutAt, Chunked.Reference, Entry, Times, ExpEntries;
    forall r: nat | r <= t ensures TokenIs(x, gate, k, v, beta, r) { ReferenceRow(exp, scale, q, k, v, g, beta, r); }
    RowsAre(x, kd, vd, s0, states, gate, k, v, beta, t, d);
    ReferenceRow(exp, scale, q, k, v, g, beta, t);
    hide TokenIs;
    ReadScaled(x, kd, scale, q, t, states(t + 1), d);
  }

  lemma ReadScaled(x: Oracle.Tokens, kd: nat, scale: real, q: seq<seq<real>>, t: nat, s: Mat, d: nat)
    requires forall e: int :: x.q(t, e) == Times(Entry(q, t, e), scale)
    ensures Sum(0, kd, e => Times(x.q(t, e), s(e, d))) == Sum(0, kd, e => Times(Times(Entry(q, t, e), scale), s(e, d)))
  {
    hide Entry, Times;
    var f, g := e => Times(x.q(t, e), s(e, d)), e => Times(Times(Entry(q, t, e), scale), s(e, d));
    forall e | 0 <= e < kd ensures f(e) == g(e) {
      assert x.q(t, e) == Times(Entry(q, t, e), scale);
    }
    SumCongr(0, kd, f, g);
  }

  /** And the state it returns is the one after the last token. */
  lemma ChunkState(exp: real -> real, scale: real, kd: nat, vd: nat, q: seq<seq<real>>, k: seq<seq<real>>, v: seq<seq<real>>,
                   g: seq<seq<real>>, beta: seq<real>, initial: seq<seq<real>>, state: array2<real>, states: nat -> Mat,
                   e: nat, d: nat)
    requires |k| == |beta| == |q| && state.Length0 == kd && state.Length1 == vd && e < kd && d < vd
    requires LowerInverse.Holds(state, Oracle.StateAt(Chunked.Reference(exp, scale, q, k, v, g, beta), kd, Oracle.AsMat(initial), |q|))
    requires GatedStates(states, Entries(initial), ExpEntries(exp, g), k, v, beta, kd, vd)
    ensures state[e, d] == states(|q|)(e, d)
  {
    var x, s0 := Chunked.Reference(exp, scale, q, k, v, g, beta), Oracle.AsMat(initial);
    var gate := ExpEntries(exp, g);
    SameStart(states, Entries(initial), s0, gate, k, v, beta, kd, vd);
    hide GatedStates, TokenIs, Chunked.Reference, Entry, Oracle.StateAt, ExpEntries;
    forall r: nat | r < |q| ensures TokenIs(x, gate, k, v, beta, r) { ReferenceRow(exp, scale, q, k, v, g, beta, r); }
    StatesAre(x, kd, vd, s0, states, gate, k, v, beta, |q|, e, d);
  }

  /** There are such states for any tokens. */
  lemma StatesOf(x: Oracle.Tokens, kd: nat, vd: nat, s0: Mat, gate: Mat, k: seq<seq<real>>, v: seq<seq<real>>, beta: seq<real>)
      returns (states: nat -> Mat)
    requires forall t: nat :: t < |k| && t < |beta| ==> TokenIs(x, gate, k, v, beta, t)
    ensures GatedStates(states, s0, gate, k, v, beta, kd, vd)
  {
    states := t => Oracle.StateAt(x, kd, s0, t);
    hide GatedStep, TokenIs;
    forall t: nat | t < |k| && t < |beta|
      ensures GatedStep(states(t), states(t + 1), e => gate(t, e), e => Entry(k, t, e), d => Entry(v, t, d), beta[t], kd, vd)
    {
      RowSteps(x, kd, vd, t, Oracle.StateAt(x, kd, s0, t), gate, k, v, beta);
    }
  }

  lemma RowSteps(x: Oracle.Tokens, kd: nat, vd: nat, t: nat, s: Mat, gate: Mat, k: seq<seq<real>>, v: seq<seq<real>>, beta: seq<real>)
    requires TokenIs(x, gate, k, v, beta, t)
    ensures GatedStep(s, Oracle.Step(x, kd, t, s), e => gate(t, e), e => Entry(k, t, e), d => Entry(v, t, d), beta[t], kd, vd)
  {
    hide GatedStep, Oracle.Step;
    OracleSteps(x, kd, vd, t, s, e => gate(t, e), e => Entry(k, t, e), d => Entry(v, t, d));
  }

  lemma OracleSteps(x: Oracle.Tokens, kd: nat, vd: nat, t: nat, s: Mat, g: Vec, key: Vec, own: Vec)
    requires forall e: int :: g(e) == x.gate(t, e) && key(e) == x.k(t, e) && own(e) == x.v(t, e)
    ensures GatedStep(s, Oracle.Step(x, kd, t, s), g, key, own, x.beta(t), kd, vd)
  {
    hide Oracle.Step, Times;
    forall e: nat, d: nat | e < kd && d < vd
      ensures Oracle.Step(x, kd, t, s)(e, d) == Times(g(e), s(e, d))
        + Times(key(e), Times(x.beta(t), own(d) - Sum(0, kd, c => Times(key(c), Times(g(c), s(c, d))))))
    {
      OracleEntry(x, kd, t, s, g, key, own, e, d);
    }
  }

  lemma OracleEntry(x: Oracle.Tokens, kd: nat, t: nat, s: Mat, g: Vec, key: Vec, own: Vec, e: int, d: int)
    requires forall e: int :: g(e) == x.gate(t, e) && key(e) == x.k(t, e) && own(e) == x.v(t, e)
    ensures Oracle.Step(x, kd, t, s)(e, d) == Times(g(e), s(e, d))
      + Times(key(e), Times(x.beta(t), own(d) - Sum(0, kd, c => Times(key(c), Times(g(c), s(c, d))))))
  {
    OracleStep(x, kd, t, s, e, d);
    Prediction(x, kd, t, s, g, key, d);
    hide Oracle.Step, Times, Dot;
  }

  lemma Prediction(x: Oracle.Tokens, kd: nat, t: nat, s: Mat, g: Vec, key: Vec, d: int)
    requires forall e: int :: g(e) == x.gate(t, e) && key(e) == x.k(t, e)
    ensures Dot(0, kd, Row(x.k, t), Col(Oracle.Gated(x, t, s), d)) == Sum(0, kd, c => Times(key(c), Times(g(c), s(c, d))))
  {
    var f, p, h := Row(x.k, t), Col(Oracle.Gated(x, t, s), d), c => Times(key(c), Times(g(c), s(c, d)));
    forall c | 0 <= c < kd ensures h(c) == Times(f(c), p(c)) {
      assert p(c) == Times(x.gate(t, c), s(c, d));
    }
    DotTimes(kd, f, p, h);
  }

  // ---- The scalar-gate pipeline ------------------------------------------------------------

  /** Value-major: the state is gated by one number, and entry (d, e) gains beta times what
      v_d lacks of the ungated state's prediction, times key e. */
  ghost predicate UngatedStep(s: Mat, s2: Mat, gate: real, k: Vec, v: Vec, beta: real, dim: nat) {
    forall d: nat, e: nat :: d < dim && e < dim ==>
      s2(d, e) == Times(gate, s(d, e)) + Times(Times(beta, v(d) - Sum(0, dim, c => Times(s(d, c), k(c)))), k(e))
  }

  /** A gate that is not positive counts as exp(-10^9). */
  function GateOf(exp: real -> real, g: real): real { if g > 0.0 then g else exp(-1000000000.0) }

  ghost predicate UngatedStates(states: nat -> Mat, data: Pipeline.Data) {
    && (forall d: nat, e: nat :: d < data.dim && e < data.dim ==> states(0)(d, e) == 0.0)
    && forall t: nat :: t < |data.g| && t < |data.beta| ==>
      UngatedStep(states(t), states(t + 1), GateOf(data.exp, data.g[t]), e => Entry(data.k, t, e), d => Entry(data.v, t, d),
                  data.beta[t], data.dim)
  }

  lemma ScalarStep(x: Scalar.Tokens, dim: nat, t: nat, s: Mat, d: int, e: int)
    ensures Scalar.Step(x, dim, t, s)(d, e) == Times(x.gate(t), s(d, e))
      + Times(Times(x.beta(t), x.v(t, d) - Dot(0, dim, Row(s, d), Row(x.k, t))), x.k(t, e))
  {
    hide Dot;
  }

  lemma GivenRow(data: Pipeline.Data, t: nat)
    requires t < |data.g| && t < |data.beta|
    ensures var x := Pipeline.Given(data);
      && x.gate(t) == GateOf(data.exp, data.g[t]) && x.beta(t) == data.beta[t]
      && forall e: int :: x.k(t, e) == Entry(data.k, t, e) && x.v(t, e) == Entry(data.v, t, e) && x.q(t, e) == Entry(data.q, t, e)
  {
  }

  lemma ScalarNext(data: Pipeline.Data, t: nat, s: Mat, r: Mat, r2: Mat, d: nat, e: nat)
    requires t < |data.g| && t < |data.beta| && d < data.dim && e < data.dim
    requires forall c: nat :: c < data.dim ==> s(d, c) == r(d, c)
    requires UngatedStep(r, r2, GateOf(data.exp, data.g[t]), c => Entry(data.k, t, c), c => Entry(data.v, t, c),
                         data.beta[t], data.dim)
    ensures Scalar.Step(Pipeline.Given(data), data.dim, t, s)(d, e) == r2(d, e)
  {
    var x := Pipeline.Given(data);
    GivenRow(data, t);
    ScalarStep(x, data.dim, t, s, d, e);
    var f, g, h := Row(s, d), Row(x.k, t), c => Times(r(d, c), (i => Entry(data.k, t, i))(c));
    forall c | 0 <= c < data.dim ensures h(c) == Times(f(c), g(c)) { }
    DotTimes(data.dim, f, g, h);
    hide Dot, Times, Scalar.Step, Entry, Pipeline.Given, GateOf;
  }

  lemma {:induction false} ScalarStatesAre(data: Pipeline.Data, states: nat -> Mat, n: nat, d: nat, e: nat)
    requires UngatedStates(states, data) && n <= |data.g| && n <= |data.beta| && d < data.dim && e < data.dim
    ensures Scalar.StateAt(Pipeline.Given(data), data.dim, n)(d, e) == states(n)(d, e)
  {
    hide UngatedStep, Scalar.Step, Pipeline.Given, GateOf, Entry;
    if n > 0 {
      var s, r := Scalar.StateAt(Pipeline.Given(data), data.dim, n - 1), states(n - 1);
      forall c: nat | c < data.dim ensures s(d, c) == r(d, c) {
        ScalarStatesAre(data, states, n - 1, d, c);
      }
      var t: nat := n - 1;
      assert UngatedStep(states(t), states(t + 1), GateOf(data.exp, data.g[t]), c => Entry(data.k, t, c),
                         c => Entry(data.v, t, c), data.beta[t], data.dim);
      ScalarNext(data, t, s, r, states(n), d, e);
    }
  }

  /** What kda_delta_rule_fwd leaves in `out`, whatever the chunk size. */
  lemma PipelineFormula(data: Pipeline.Data, out: array2<real>, states: nat -> Mat, t: nat, d: nat)
    requires data.Shaped() && Pipeline.OutRows(data, out, |data.q|)
    requires t < |data.q| == out.Length0 && d < data.dim == out.Length1
    requires forall r :: 0 <= r < |data.g| && data.g[r] > 0.0 ==> data.exp(data.log(data.g[r])) == data.g[r]
    requires UngatedStates(states, data)
    ensures var s := states(t + 1); out[t, d] == Sum(0, data.dim, e => Times(s(d, e), Entry(data.q, t, e)))
  {
    Pipeline.GivenGates(data, out, t, d);
    var x := Pipeline.Given(data);
    var s, r := Scalar.StateAt(x, data.dim, t + 1), states(t + 1);
    GivenRow(data, t);
    var h := e => Times(r(d, e), Entry(data.q, t, e));
    hide UngatedStates, Pipeline.OutRows, Entry, Pipeline.Given, Scalar.StateAt;
    forall e | 0 <= e < data.dim ensures h(e) == Times(Row(s, d)(e), Row(x.q, t)(e)) {
      ScalarStatesAre(data, states, t + 1, d, e);
    }
    DotTimes(data.dim, Row(s, d), Row(x.q, t), h);
  }
}
