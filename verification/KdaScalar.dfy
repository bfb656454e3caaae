/** The scalar-gate pipeline over buffers: gate cumsum, in-chunk solve, state
    propagation across chunks, output combine. One (batch, head) slice. */
module KdaScalar {
  import opened Buffers
  import opened ExpLaws
  import opened IntArith
  import opened Sums
  import opened KdaScalarAlgebra
  import Oracle = KdaRecurrence

  datatype Data = Data(exp: real -> real, log: real -> real, dim: nat, size: nat,
                       q: seq<seq<real>>, k: seq<seq<real>>, v: seq<seq<real>>, g: seq<real>, beta: seq<real>)
  {
    predicate Shaped() {
      && Oracle.Rect(q, |q|, dim) && Oracle.Rect(k, |q|, dim) && Oracle.Rect(v, |q|, dim)
      && |g| == |q| && |beta| == |q|
    }
  }

  /** The slice: log gates as the code takes them. */
  ghost function SliceOf(data: Data): Slice {
    var log, g := data.log, Oracle.AsVec(data.g);
    Slice(data.exp, data.dim, Oracle.AsMat(data.q), Oracle.AsMat(data.k), Oracle.AsMat(data.v), t => LogGate(log, g(t)), Oracle.AsVec(data.beta))
  }

  ghost predicate Ready(data: Data) {
    data.Shaped() && data.size > 0 && (|data.q| / data.size) * data.size == |data.q| && IsExp(data.exp)
  }

  /** Rows lo .. hi-1 form a chunk whose log gates are summed into intraLog. */
  ghost predicate ChunkAt(data: Data, intraLog: array<real>, lo: nat, hi: nat)
    reads intraLog
  {
    && data.Shaped() && IsExp(data.exp) && intraLog.Length == |data.q| && lo < hi <= |data.q|
    && forall t :: lo <= t < hi ==> intraLog[t] == Sum(lo, t + 1, SliceOf(data).lg)
  }

  /** Gate log-cumsums: inclusive inside each chunk, exclusive across chunks. */
  method GateChunkCumsum(data: Data) returns (intraLog: array<real>, interLog: array<real>)
    requires Ready(data)
    ensures fresh(intraLog) && fresh(interLog)
    ensures intraLog.Length == |data.q| && interLog.Length == |data.q| / data.size
    ensures forall c :: 0 <= c < interLog.Length ==> interLog[c] == Sum(0, c * data.size, SliceOf(data).lg)
    ensures forall c: nat :: c < interLog.Length ==> ChunkAt(data, intraLog, c * data.size, c * data.size + data.size)
  {
    hide Sum;
    var chunks := |data.q| / data.size;
    ghost var lg := SliceOf(data).lg;
    SumZero(0, 0, lg);
    intraLog, interLog := new real[|data.q|], new real[chunks];
    var interAcc := 0.0;
    for c := 0 to chunks
      modifies intraLog, interLog
      invariant interAcc == Sum(0, c * data.size, lg)
      invariant forall b :: 0 <= b < c ==> interLog[b] == Sum(0, b * data.size, lg)
      invariant forall b: nat :: b < c ==> ChunkAt(data, intraLog, b * data.size, b * data.size + data.size)
    {
      BlockFits(c, chunks, data.size);
      interLog[c] := interAcc;
      var acc := ChunkCumsum(data, intraLog, c);
      forall b: nat | b < c ensures ChunkAt(data, intraLog, b * data.size, b * data.size + data.size) {
        BlockFits(b, c, data.size);
      }
      SumSplit(0, c * data.size, c * data.size + data.size, lg);
      MulSucc(c, data.size);
      interAcc := interAcc + acc;
    }
  }

  /** The inner loop of the cumsum, over one chunk. */
  method ChunkCumsum(data: Data, intraLog: array<real>, c: nat) returns (acc: real)
    requires Ready(data) && intraLog.Length == |data.q| && c * data.size + data.size <= |data.q|
    modifies intraLog
    ensures ChunkAt(data, intraLog, c * data.size, c * data.size + data.size)
    ensures forall t :: 0 <= t < c * data.size ==> intraLog[t] == old(intraLog[t])
    ensures acc == Sum(c * data.size, c * data.size + data.size, SliceOf(data).lg)
  {
    var lo := c * data.size;
    acc := 0.0;
    for t := lo to lo + data.size
      invariant acc == Sum(lo, t, SliceOf(data).lg)
      invariant forall r :: lo <= r < t ==> intraLog[r] == Sum(lo, r + 1, SliceOf(data).lg)
      invariant forall r :: 0 <= r < lo ==> intraLog[r] == old(intraLog[r])
    {
      acc := acc + LogGate(data.log, data.g[t]);
      intraLog[t] := acc;
    }
  }

  /** G_{a, b}: 1 when the range is empty. */
  method GateProdIntra(data: Data, intraLog: array<real>, lo: nat, hi: nat, a: nat, b: int) returns (g: real)
    requires ChunkAt(data, intraLog, lo, hi) && lo <= a <= b + 1 <= hi
    ensures g == Prod(SliceOf(data), a, b + 1)
  {
    ghost var x := SliceOf(data);
    if a > b {
      ProdEmpty(x, a);
      g := 1.0;
    } else {
      SumSplit(lo, a, b + 1, x.lg);
      g := data.exp(intraLog[b] - (if a > lo then intraLog[a - 1] else 0.0));
    }
  }

  /** Row d of inter_state[c] holds the state after c chunks. */
  ghost predicate StateStored(data: Data, states: array3<real>, c: nat)
    reads states
  {
    && states.Length1 == states.Length2 == data.dim && c < states.Length0
    && forall d, e :: 0 <= d < data.dim && 0 <= e < data.dim ==>
         states[c, d, e] == StateAt(Tok(SliceOf(data)), data.dim, c * data.size)(d, e)
  }

  /** Rows below n of u hold the residuals. */
  ghost predicate ResidualsStored(data: Data, u: array2<real>, n: nat)
    reads u
  {
    u.Length0 == |data.q| && u.Length1 == data.dim &&
    forall t, d :: 0 <= t < n && t < |data.q| && 0 <= d < data.dim ==> u[t, d] == Residuals(SliceOf(data), d)(t)
  }

  /** sum_e C[d, e] * y[e]. */
  method ReadState(data: Data, states: array3<real>, c: nat, d: nat, y: seq<real>, ghost m: Mat, ghost t: int) returns (s: real)
    requires StateStored(data, states, c) && d < data.dim && |y| == data.dim
    requires forall e :: 0 <= e < data.dim ==> y[e] == m(t, e)
    ensures s == Dot(0, data.dim, Row(StateAt(Tok(SliceOf(data)), data.dim, c * data.size), d), Row(m, t))
  {
    hide StateAt;
    s := 0.0;
    ghost var st := StateAt(Tok(SliceOf(data)), data.dim, c * data.size);
    for e := 0 to data.dim
      invariant s == Dot(0, e, Row(st, d), Row(m, t))
    {
      s := s + states[c, d, e] * y[e];
    }
  }

  /** (G_{j+1, n-1} b_j) (k_j . y). */
  method Coefficient(data: Data, intraLog: array<real>, lo: nat, hi: nat, j: nat, n: nat, y: seq<real>, ghost m: Mat, ghost t: int) returns (w: real)
    requires ChunkAt(data, intraLog, lo, hi) && lo <= j < n <= hi && |y| == data.dim
    requires forall e :: 0 <= e < data.dim ==> y[e] == m(t, e)
    ensures w == Coef(SliceOf(data), n, Row(m, t))(j)
  {
    var gj := GateProdIntra(data, intraLog, lo, hi, j + 1, n - 1);
    var dot := 0.0;
    for e := 0 to data.dim
      invariant dot == Dot(0, e, Row(SliceOf(data).k, j), Row(m, t))
    {
      dot := dot + data.k[j][e] * y[e];
    }
    w := (gj * data.beta[j]) * dot;
  }

  /** sum_{j < n} coef_j u_j, for every value dimension at once. */
  method OwnPart(data: Data, intraLog: array<real>, lo: nat, hi: nat, n: nat, u: array2<real>, y: seq<real>, ghost m: Mat, ghost t: int) returns (own: seq<real>)
    requires ChunkAt(data, intraLog, lo, hi) && lo <= n <= hi && |y| == data.dim
    requires ResidualsStored(data, u, n)
    requires forall e :: 0 <= e < data.dim ==> y[e] == m(t, e)
    ensures |own| == data.dim
    ensures forall d :: 0 <= d < data.dim ==> own[d] == Dot(lo, n, Coef(SliceOf(data), n, Row(m, t)), Residuals(SliceOf(data), d))
  {
    hide Residuals, Coef;
    ghost var cf := Coef(SliceOf(data), n, Row(m, t));
    own := seq(data.dim, d => 0.0);
    for j := lo to n
      invariant |own| == data.dim
      invariant forall d :: 0 <= d < data.dim ==> own[d] == Dot(lo, j, cf, Residuals(SliceOf(data), d))
    {
      var w := Coefficient(data, intraLog, lo, hi, j, n, y, m, t);
      own := AddScaledRow(data, own, w, u, j, cf, lo);
    }
  }

  /** own += w * u[j]. */
  method AddScaledRow(data: Data, own: seq<real>, w: real, u: array2<real>, j: nat, ghost cf: Vec, ghost lo: int) returns (sum: seq<real>)
    requires |own| == data.dim && ResidualsStored(data, u, j + 1) && j < u.Length0 && lo <= j && w == cf(j)
    requires forall d :: 0 <= d < data.dim ==> own[d] == Dot(lo, j, cf, Residuals(SliceOf(data), d))
    ensures |sum| == data.dim
    ensures forall d :: 0 <= d < data.dim ==> sum[d] == Dot(lo, j + 1, cf, Residuals(SliceOf(data), d))
  {
    hide Residuals;
    sum := [];
    for d := 0 to data.dim
      invariant |sum| == d
      invariant forall r :: 0 <= r < d ==> sum[r] == Dot(lo, j + 1, cf, Residuals(SliceOf(data), r))
    {
      sum := sum + [own[d] + w * u[j, d]];
    }
  }

  /** Row t of u, from C_{c-1} and the rows before it. */
  method SolveToken(data: Data, intraLog: array<real>, states: array3<real>, u: array2<real>, c: nat, t: nat) returns (row: seq<real>)
    requires ChunkAt(data, intraLog, c * data.size, c * data.size + data.size)
    requires StateStored(data, states, c) && c * data.size <= t < c * data.size + data.size
    requires ResidualsStored(data, u, t)
    ensures |row| == data.dim && forall d :: 0 <= d < data.dim ==> row[d] == Residuals(SliceOf(data), d)(t)
  {
    hide StateAt, Residuals, Coef, Prod, Dot;
    ghost var x := SliceOf(data);
    var lo, hi := c * data.size, c * data.size + data.size;
    var g0 := GateProdIntra(data, intraLog, lo, hi, lo, t - 1);
    var corr := OwnPart(data, intraLog, lo, hi, t, u, data.k[t], x.k, t);
    row := [];
    for d := 0 to data.dim
      invariant |row| == d && forall r :: 0 <= r < d ==> row[r] == Residuals(x, r)(t)
    {
      var s := ReadState(data, states, c, d, data.k[t], x.k, t);
      ResidualClosed(x, lo, t, d);
      var pred := g0 * s;
      row := row + [data.v[t][d] - pred - corr[d]];
    }
  }

  /** kda_delta_rule_intra for chunk c. */
  method DeltaRuleIntra(data: Data, intraLog: array<real>, states: array3<real>, u: array2<real>, c: nat)
    requires ChunkAt(data, intraLog, c * data.size, c * data.size + data.size)
    requires StateStored(data, states, c) && ResidualsStored(data, u, c * data.size)
    modifies u
    ensures ResidualsStored(data, u, c * data.size + data.size)
  {
    hide StateAt, Residuals;
    for t := c * data.size to c * data.size + data.size
      invariant ResidualsStored(data, u, t)
    {
      var row := SolveToken(data, intraLog, states, u, c, t);
      StoreRow(u, t, row);
    }
  }

  /** Entry (d, e) of C_c while it accumulates tokens lo .. n-1 of the chunk. */
  ghost function Partial(x: Slice, lo: int, hi: int, n: int, d: int, e: int, c: Mat): real {
    Prod(x, lo, hi) * c(d, e) + Dot(lo, n, Weights(x, hi, Residuals(x, d)), Col(x.k, e))
  }

  /** Block b of inter_state, part way through the chunk that starts at lo. */
  ghost predicate PartialStored(data: Data, states: array3<real>, b: nat, lo: nat, n: int)
    reads states
  {
    var x := SliceOf(data);
    var st := StateAt(Tok(x), data.dim, lo);
    && states.Length1 == states.Length2 == data.dim && b < states.Length0
    && forall d, e :: 0 <= d < data.dim && 0 <= e < data.dim ==>
         states[b, d, e] == Partial(x, lo, lo + data.size, n, d, e, st)
  }

  /** Only block b of inter_state is written. */
  twostate predicate OthersKept(states: array3<real>, b: nat)
    reads states
  {
    forall a, d, e :: 0 <= a < states.Length0 && a != b && 0 <= d < states.Length1 && 0 <= e < states.Length2 ==>
      states[a, d, e] == old(states[a, d, e])
  }

  /** Crow = g * Cinrow, row by row. */
  method ScaleBlock(states: array3<real>, c: nat, b: nat, g: real)
    requires c < states.Length0 && b < states.Length0 && c != b
    modifies states
    ensures OthersKept(states, b)
    ensures forall d, e :: 0 <= d < states.Length1 && 0 <= e < states.Length2 ==> states[b, d, e] == g * states[c, d, e]
  {
    for d := 0 to states.Length1
      invariant OthersKept(states, b)
      invariant forall r, e :: 0 <= r < d && 0 <= e < states.Length2 ==> states[b, r, e] == g * states[c, r, e]
    {
      for e := 0 to states.Length2
        invariant OthersKept(states, b)
        invariant forall r, s :: 0 <= r < states.Length1 && 0 <= s < states.Length2 && (r < d || (r == d && s < e)) ==>
          states[b, r, s] == g * states[c, r, s]
      {
        states[b, d, e] := g * states[c, d, e];
      }
    }
  }

  /** Crow += (w * u[d]) * k, row by row. */
  method AddOuter(states: array3<real>, b: nat, w: real, u: seq<real>, k: seq<real>)
    requires b < states.Length0 && |u| == states.Length1 && |k| == states.Length2
    modifies states
    ensures OthersKept(states, b)
    ensures forall d, e :: 0 <= d < |u| && 0 <= e < |k| ==> states[b, d, e] == old(states[b, d, e]) + (w * u[d]) * k[e]
  {
    for d := 0 to |u|
      invariant OthersKept(states, b)
      invariant forall r, s :: 0 <= r < |u| && 0 <= s < |k| ==>
        states[b, r, s] == if r < d then old(states[b, r, s]) + (w * u[r]) * k[s] else old(states[b, r, s])
    {
      var wd := w * u[d];
      for e := 0 to |k|
        invariant OthersKept(states, b)
        invariant forall r, s :: 0 <= r < |u| && 0 <= s < |k| ==>
          states[b, r, s] == if r < d || (r == d && s < e) then old(states[b, r, s]) + (w * u[r]) * k[s] else old(states[b, r, s])
      {
        states[b, d, e] := states[b, d, e] + wd * k[e];
      }
    }
  }

  /** Cout = G_full * Cin. */
  method CarryState(data: Data, intraLog: array<real>, states: array3<real>, c: nat, b: nat)
    requires ChunkAt(data, intraLog, c * data.size, c * data.size + data.size)
    requires StateStored(data, states, c) && b == c + 1 < states.Length0
    modifies states
    ensures OthersKept(states, b) && PartialStored(data, states, b, c * data.size, c * data.size)
  {
    hide StateAt, Weights;
    ghost var x := SliceOf(data);
    var lo, hi := c * data.size, c * data.size + data.size;
    var full := GateProdIntra(data, intraLog, lo, hi, lo, hi - 1);
    ScaleBlock(states, c, b, full);
    forall d, e | 0 <= d < data.dim && 0 <= e < data.dim
      ensures states[b, d, e] == Partial(x, lo, hi, lo, d, e, StateAt(Tok(x), data.dim, lo))
    {
      assert Dot(lo, lo, Weights(x, hi, Residuals(x, d)), Col(x.k, e)) == 0.0;
    }
  }

  /** Cout += (G_{t+1, last} b_t) u_t k_t^T. */
  method AddToken(data: Data, intraLog: array<real>, states: array3<real>, u: array2<real>, lo: nat, b: nat, t: nat)
    requires ChunkAt(data, intraLog, lo, lo + data.size)
    requires lo <= t < lo + data.size && ResidualsStored(data, u, t + 1)
    requires PartialStored(data, states, b, lo, t)
    modifies states
    ensures OthersKept(states, b) && PartialStored(data, states, b, lo, t + 1)
  {
    hide StateAt, Residuals, Partial, Dot, Prod;
    ghost var x := SliceOf(data);
    var gt := GateProdIntra(data, intraLog, lo, lo + data.size, t + 1, lo + data.size - 1);
    var w := gt * data.beta[t];
    var ut := seq(data.dim, d requires 0 <= d < data.dim reads u => u[t, d]);
    AddOuter(states, b, w, ut, data.k[t]);
    forall d, e | 0 <= d < data.dim && 0 <= e < data.dim
      ensures states[b, d, e] == Partial(x, lo, lo + data.size, t + 1, d, e, StateAt(Tok(x), data.dim, lo))
    {
      PartialStep(x, lo, lo + data.size, t, d, e, StateAt(Tok(x), data.dim, lo), w * ut[d]);
    }
  }

  lemma PartialStep(x: Slice, lo: int, hi: int, t: int, d: int, e: int, st: Mat, wd: real)
    requires lo <= t && wd == Weights(x, hi, Residuals(x, d))(t)
    ensures Partial(x, lo, hi, t + 1, d, e, st) == Partial(x, lo, hi, t, d, e, st) + wd * x.k(t, e)
  {
  }

  /** kda_delta_rule_inter for chunk c: fills inter_state[c + 1]. */
  method DeltaRuleInter(data: Data, intraLog: array<real>, u: array2<real>, states: array3<real>, c: nat, b: nat)
    requires ChunkAt(data, intraLog, c * data.size, c * data.size + data.size)
    requires StateStored(data, states, c) && b == c + 1 < states.Length0
    requires ResidualsStored(data, u, c * data.size + data.size)
    modifies states
    ensures OthersKept(states, b) && StateStored(data, states, b)
  {
    hide StateAt, Residuals, Partial;
    CarryState(data, intraLog, states, c, b);
    for t := c * data.size to c * data.size + data.size
      invariant OthersKept(states, b) && PartialStored(data, states, b, c * data.size, t)
    {
      AddToken(data, intraLog, states, u, c * data.size, b, t);
    }
    ghost var x := SliceOf(data);
    MulSucc(c, data.size);
    forall d, e | 0 <= d < data.dim && 0 <= e < data.dim
      ensures states[b, d, e] == StateAt(Tok(x), data.dim, b * data.size)(d, e)
    {
      PartialDone(x, c * data.size, c * data.size + data.size, d, e);
    }
  }

  lemma PartialDone(x: Slice, lo: nat, hi: nat, d: int, e: int)
    requires IsExp(x.exp) && lo <= hi
    ensures Partial(x, lo, hi, hi, d, e, StateAt(Tok(x), x.dim, lo)) == StateAt(Tok(x), x.dim, hi)(d, e)
  {
    hide StateAt, Residuals, Prod, Weights, Dot;
    ClosedForm(x, lo, hi, d, e);
  }

  /** Row t of the output, from C_{c-1} and the chunk's residuals. */
  method OutToken(data: Data, intraLog: array<real>, states: array3<real>, u: array2<real>, c: nat, t: nat) returns (row: seq<real>)
    requires ChunkAt(data, intraLog, c * data.size, c * data.size + data.size)
    requires StateStored(data, states, c) && c * data.size <= t < c * data.size + data.size
    requires ResidualsStored(data, u, |data.q|)
    ensures |row| == data.dim && forall d :: 0 <= d < data.dim ==> row[d] == OutAt(Tok(SliceOf(data)), data.dim, t)(d)
  {
    hide StateAt, Residuals, Coef, OutAt, Prod, Dot;
    ghost var x := SliceOf(data);
    var lo, hi := c * data.size, c * data.size + data.size;
    var g0 := GateProdIntra(data, intraLog, lo, hi, lo, t);
    var intraOut := OwnPart(data, intraLog, lo, hi, t + 1, u, data.q[t], x.q, t);
    row := [];
    for d := 0 to data.dim
      invariant |row| == d && forall r :: 0 <= r < d ==> row[r] == OutAt(Tok(x), data.dim, t)(r)
    {
      var s := ReadState(data, states, c, d, data.q[t], x.q, t);
      OutClosed(x, lo, t, d);
      row := row + [g0 * s + intraOut[d]];
    }
  }

  /** The first n output rows are those of the recurrence. */
  ghost predicate OutRows(data: Data, out: array2<real>, n: int)
    reads out
  {
    forall t: nat, d :: t < n && t < out.Length0 && 0 <= d < out.Length1 ==>
      out[t, d] == OutAt(Tok(SliceOf(data)), data.dim, t)(d)
  }

  /** kda_gla_fwd_o, one chunk. */
  method OutChunk(data: Data, intraLog: array<real>, states: array3<real>, u: array2<real>, c: nat, out: array2<real>)
    requires ChunkAt(data, intraLog, c * data.size, c * data.size + data.size)
    requires StateStored(data, states, c) && ResidualsStored(data, u, |data.q|)
    requires out != u && out.Length0 == |data.q| && out.Length1 == data.dim && OutRows(data, out, c * data.size)
    modifies out
    ensures OutRows(data, out, c * data.size + data.size)
  {
    hide StateAt, Residuals, OutAt;
    for t := c * data.size to c * data.size + data.size
      invariant OutRows(data, out, t)
    {
      var row := OutToken(data, intraLog, states, u, c, t);
      StoreRow(out, t, row);
    }
  }

  datatype Status = Ok | DimNotPositive | ChunkMustDivide

  /** _kda_check_chunk: Ok for every positive chunk size that cuts n tokens into whole
      chunks, and for no other. */
  function CheckChunk(n: nat, dim: int, size: int): (s: Status)
    ensures s == DimNotPositive <==> dim <= 0
    ensures s == Ok <==> dim > 0 && size > 0 && exists chunks: nat :: chunks * size == n
  {
    if dim <= 0 then DimNotPositive
    else if size <= 0 then ChunkMustDivide
    else
      WholeChunks(n, size);
      if n % size != 0 then ChunkMustDivide else Ok
  }

  lemma WholeChunks(n: nat, size: nat)
    requires size > 0
    ensures n % size == 0 <==> exists chunks: nat :: chunks * size == n
  {
    DivMod(n, size);
    QuotientNat(n, size);
    if n % size == 0 {
      assert (n / size) * size == n;
    }
    forall chunks: nat | chunks * size == n ensures n % size == 0 {
      DivUnique(n, size, chunks);
    }
  }

  /** The pipeline, once its chunk size is accepted. */
  method Pipeline(data: Data, out: array2<real>)
    requires Ready(data) && out.Length0 == |data.q| && out.Length1 == data.dim
    modifies out
    ensures OutRows(data, out, |data.q|)
  {
    hide StateAt, Residuals, OutAt;
    var n := |data.q|;
    var chunks := n / data.size;
    var intraLog, interLog := GateChunkCumsum(data);
    var u := new real[n, data.dim]((t, d) => 0.0);
    var states := new real[chunks + 1, data.dim, data.dim]((c, d, e) => 0.0);
    StartStored(data, states);
    SolveChunks(data, intraLog, u, states, chunks);
    OutChunks(data, intraLog, u, states, chunks, out);
  }

  /** kda_delta_rule_fwd. Every positive chunk size that divides the length is
      accepted, no other is, and the rows are then the token recurrence's, at the
      gates exp(log g) the code works with. */
  method DeltaRuleFwd(data: Data, size: int, out: array2<real>) returns (status: Status)
    requires data.Shaped() && IsExp(data.exp)
    requires out.Length0 == |data.q| && out.Length1 == data.dim
    modifies out
    ensures status == DimNotPositive <==> data.dim == 0
    ensures status == Ok <==> data.dim > 0 && size > 0 && |data.q| % size == 0
    ensures status == Ok ==> OutRows(data, out, |data.q|)
    ensures status != Ok ==> forall t, d :: 0 <= t < out.Length0 && 0 <= d < out.Length1 ==> out[t, d] == old(out[t, d])
  {
    hide StateAt, Residuals, OutAt;
    status := CheckChunk(|data.q|, data.dim, size);
    if size > 0 { WholeChunks(|data.q|, size); }
    if status != Ok { return; }
    DivMod(|data.q|, size);
    Pipeline(data.(size := size), out);
  }

  /** The first loop: solve each chunk, then carry its state on. */
  method SolveChunks(data: Data, intraLog: array<real>, u: array2<real>, states: array3<real>, chunks: nat)
    requires Ready(data) && chunks == |data.q| / data.size
    requires forall c: nat :: c < chunks ==> ChunkAt(data, intraLog, c * data.size, c * data.size + data.size)
    requires u.Length0 == |data.q| && u.Length1 == data.dim
    requires states.Length0 == chunks + 1 && states.Length1 == states.Length2 == data.dim
    requires StateStored(data, states, 0)
    modifies u, states
    ensures ResidualsStored(data, u, |data.q|)
    ensures forall b: nat :: b <= chunks ==> StateStored(data, states, b)
  {
    hide StateAt, Residuals;
    assert ResidualsStored(data, u, 0);
    hide StateStored, ResidualsStored, ChunkAt;
    for c := 0 to chunks
      invariant ResidualsStored(data, u, c * data.size)
      invariant forall b: nat :: b <= c ==> StateStored(data, states, b)
    {
      DeltaRuleIntra(data, intraLog, states, u, c);
      Propagate(data, intraLog, u, states, c);
      MulSucc(c, data.size);
    }
  }

  /** The second loop: the output rows. */
  method OutChunks(data: Data, intraLog: array<real>, u: array2<real>, states: array3<real>, chunks: nat, out: array2<real>)
    requires Ready(data) && chunks == |data.q| / data.size
    requires forall c: nat :: c < chunks ==> ChunkAt(data, intraLog, c * data.size, c * data.size + data.size)
    requires states.Length0 == chunks + 1 && forall b: nat :: b <= chunks ==> StateStored(data, states, b)
    requires ResidualsStored(data, u, |data.q|)
    requires out.Length0 == |data.q| && out.Length1 == data.dim && out != u
    modifies out
    ensures OutRows(data, out, |data.q|)
  {
    hide StateAt, Residuals, OutAt;
    for c := 0 to chunks
      invariant OutRows(data, out, c * data.size)
    {
      OutChunk(data, intraLog, states, u, c, out);
      MulSucc(c, data.size);
    }
  }

  lemma StartStored(data: Data, states: array3<real>)
    requires states.Length0 > 0 && states.Length1 == states.Length2 == data.dim
    requires forall d, e :: 0 <= d < data.dim && 0 <= e < data.dim ==> states[0, d, e] == 0.0
    ensures StateStored(data, states, 0)
  {
  }

  /** DeltaRuleInter keeps the blocks already stored. */
  method Propagate(data: Data, intraLog: array<real>, u: array2<real>, states: array3<real>, c: nat)
    requires ChunkAt(data, intraLog, c * data.size, c * data.size + data.size)
    requires c + 1 < states.Length0 && forall b: nat :: b <= c ==> StateStored(data, states, b)
    requires ResidualsStored(data, u, c * data.size + data.size)
    modifies states
    ensures forall b: nat :: b <= c + 1 ==> StateStored(data, states, b)
  {
    hide StateAt, Residuals;
    DeltaRuleInter(data, intraLog, u, states, c, c + 1);
    forall b: nat | b <= c ensures StateStored(data, states, b) {
      assert old(StateStored(data, states, b));
    }
  }

  /** With log and exp inverse, a positive gate is the one given; any other is the floor's. */
  lemma GateUsed(data: Data, t: nat)
    requires t < |data.g| && (data.g[t] > 0.0 ==> data.exp(data.log(data.g[t])) == data.g[t])
    ensures Tok(SliceOf(data)).gate(t) == Given(data).gate(t)
  {
    var x := SliceOf(data);
    assert Oracle.AsVec(data.g)(t) == data.g[t];
    assert x.lg(t) == LogGate(data.log, data.g[t]);
    assert Tok(x).gate(t) == x.exp(x.lg(t));
  }

  /** The tokens as given: no logarithm anywhere, a gate of zero or less being the
      exponential of the floor. */
  ghost function Given(data: Data): Tokens {
    var g, exp := data.g, data.exp;
    Tokens(Oracle.AsMat(data.q), Oracle.AsMat(data.k), Oracle.AsMat(data.v),
           t => if !(0 <= t < |g|) then 0.0 else if g[t] > 0.0 then g[t] else exp(-1000000000.0), Oracle.AsVec(data.beta))
  }

  /** The pipeline's rows are S_t = g_t S_{t-1} + b_t (v_t - S_{t-1} k_t) k_t^T,
      o_t = S_t q_t, in the given gates, with exp(-1e9) for those not positive: nothing
      of the chunk size or of the logarithms is left. */
  lemma GivenGates(data: Data, out: array2<real>, t: nat, d: nat)
    requires data.Shaped() && OutRows(data, out, |data.q|) && t < |data.q| == out.Length0 && d < out.Length1
    requires forall r :: 0 <= r < |data.g| && data.g[r] > 0.0 ==> data.exp(data.log(data.g[r])) == data.g[r]
    ensures out[t, d] == OutAt(Given(data), data.dim, t)(d)
  {
    hide OutAt;
    forall r | 0 <= r <= t ensures Tok(SliceOf(data)).gate(r) == Given(data).gate(r) {
      GateUsed(data, r);
    }
    OutCongr(Tok(SliceOf(data)), Given(data), data.dim, t, d);
  }
}
