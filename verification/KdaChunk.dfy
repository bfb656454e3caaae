/** The chunked (WY) delta rule over buffers: padding, in-chunk gate sums, the
    in-place triangular inversion, and the carried state. One slice. */
module KdaChunk {
  import opened Buffers
  import opened ExpLaws
  import opened IntArith
  import opened Sums
  import opened UnitLower
  import opened LowerInverse
  import opened RealArith
  import opened KdaRecurrence
  import opened KdaChunkAlgebra

  /** Zero-padded, scaled inputs. */
  datatype Data = Data(exp: real -> real, kd: nat, vd: nat, q: seq<seq<real>>, k: seq<seq<real>>, v: seq<seq<real>>, beta: seq<real>)

  /** F.pad(x, (0, 0, 0, pad)). */
  function Pad(x: seq<seq<real>>, cols: nat, pad: nat): (r: seq<seq<real>>)
    ensures |r| == |x| + pad
    ensures Rect(x, |x|, cols) ==> Rect(r, |r|, cols)
    ensures forall i, j :: AsMat(r)(i, j) == AsMat(x)(i, j)
  {
    x + seq(pad, i => seq(cols, j => 0.0))
  }

  function PadVec(x: seq<real>, pad: nat): (r: seq<real>)
    ensures |r| == |x| + pad
    ensures forall i :: AsVec(r)(i) == AsVec(x)(i)
  {
    x + seq(pad, i => 0.0)
  }

  function ScaleRows(x: seq<seq<real>>, c: real): (r: seq<seq<real>>)
    ensures |r| == |x| && forall i :: 0 <= i < |x| ==> |r[i]| == |x[i]|
    ensures forall i, j :: AsMat(r)(i, j) == AsMat(x)(i, j) * c
  {
    seq(|x|, i requires 0 <= i < |x| => seq(|x[i]|, j requires 0 <= j < |x[i]| => x[i][j] * c))
  }

  /** Rows lo .. hi-1 of the data are the slice's tokens, and gc holds the log
      gates summed from lo. */
  ghost predicate ChunkAt(x: Slice, data: Data, gc: array2<real>, lo: nat, hi: nat)
    reads gc
  {
    && x.exp == data.exp && x.kd == data.kd
    && Rect(data.q, |data.q|, x.kd) && Rect(data.k, |data.q|, x.kd) && Rect(data.v, |data.q|, data.vd) && |data.beta| == |data.q|
    && gc.Length0 == |data.q| && gc.Length1 == x.kd
    && lo < hi <= |data.q|
    && (forall t, e :: lo <= t < hi && 0 <= e < x.kd ==>
          data.q[t][e] == x.q(t, e) && data.k[t][e] == x.k(t, e) && gc[t, e] == Cum(x, lo, t + 1, e))
    && (forall t, d :: lo <= t < hi && 0 <= d < data.vd ==> data.v[t][d] == x.v(t, d))
    && (forall t :: lo <= t < hi ==> data.beta[t] == x.beta(t))
  }

  /** What a chunk's buffers hold for one key dimension of one token. */
  lemma ChunkCell(x: Slice, data: Data, gc: array2<real>, lo: nat, hi: nat, t: nat, e: nat)
    requires ChunkAt(x, data, gc, lo, hi) && lo <= t < hi && e < data.kd
    ensures t < |data.q| == |data.k| == |data.beta| == gc.Length0 && e < |data.q[t]| == |data.k[t]| == gc.Length1
    ensures data.q[t][e] == x.q(t, e) && data.k[t][e] == x.k(t, e) && data.beta[t] == x.beta(t)
    ensures gc[t, e] == Cum(x, lo, t + 1, e)
  {
    hide Cum;
  }

  /** One more key dimension of a decayed inner product. */
  lemma DecayedTerm(x: Slice, f: Vec, lo: nat, n: nat, j: nat, e: nat)
    ensures Dot(0, e + 1, f, Col(Decayed(x, lo, n), j))
      == Dot(0, e, f, Col(Decayed(x, lo, n), j)) + Times(f(e), Times(x.k(j, e), x.exp(Cum(x, lo, n, e) - Cum(x, lo, j + 1, e))))
  {
    hide Cum;
    var g := Col(Decayed(x, lo, n), j);
    assert g(e) == x.k(j, e) * x.exp(Cum(x, lo, n, e) - Cum(x, lo, j + 1, e));
    hide Decayed, Col, Dot;
    DotStep(0, e, f, g);
  }

  /** Entry (i, j) of -(k_beta_i * k_j * decay).sum(-1), below the diagonal. */
  method AttnEntry(ghost x: Slice, data: Data, gc: array2<real>, lo: nat, hi: nat, i: nat, j: nat) returns (a: real)
    requires ChunkAt(x, data, gc, lo, hi) && lo <= j < i < hi
    ensures a == System(x, lo)(i, j)
  {
    var s := 0.0;
    ghost var f, g := Row(x.k, i), Col(Decayed(x, lo, i + 1), j);
    AttnBounds(x, data, gc, lo, hi, i, j);
    hide ChunkAt, Dot, Decayed, Cum, System, Times, Row, Col;
    for e := 0 to data.kd
      invariant s == Times(x.beta(i), Dot(0, e, f, g))
    {
      AttnStep(x, data, gc, lo, hi, i, j, e);
      s := s + Times(Times(Times(data.k[i][e], data.beta[i]), data.k[j][e]), data.exp(gc[i, e] - gc[j, e]));
    }
    a := -s;
  }

  lemma AttnBounds(x: Slice, data: Data, gc: array2<real>, lo: nat, hi: nat, i: nat, j: nat)
    requires ChunkAt(x, data, gc, lo, hi) && lo <= j < i < hi
    ensures x.exp == data.exp && x.kd == data.kd
    ensures Times(x.beta(i), Dot(0, 0, Row(x.k, i), Col(Decayed(x, lo, i + 1), j))) == 0.0
    ensures System(x, lo)(i, j) == -Times(x.beta(i), Dot(0, x.kd, Row(x.k, i), Col(Decayed(x, lo, i + 1), j)))
  {
    assert Dot(0, 0, Row(x.k, i), Col(Decayed(x, lo, i + 1), j)) == 0.0;
    hide Dot, Decayed, Row, Col;
  }

  lemma AttnStep(x: Slice, data: Data, gc: array2<real>, lo: nat, hi: nat, i: nat, j: nat, e: nat)
    requires ChunkAt(x, data, gc, lo, hi) && lo <= j < i < hi && e < data.kd
    ensures i < |data.k| == |data.beta| == gc.Length0 && e < |data.k[i]| == |data.k[j]| == gc.Length1
    ensures Times(x.beta(i), Dot(0, e, Row(x.k, i), Col(Decayed(x, lo, i + 1), j)))
      + Times(Times(Times(data.k[i][e], data.beta[i]), data.k[j][e]), data.exp(gc[i, e] - gc[j, e]))
      == Times(x.beta(i), Dot(0, e + 1, Row(x.k, i), Col(Decayed(x, lo, i + 1), j)))
  {
    var f, g := Row(x.k, i), Col(Decayed(x, lo, i + 1), j);
    assert x.exp == data.exp && f(e) == x.k(i, e);
    hide ChunkAt, Dot, Decayed, Cum, Times, Row, Col;
    ChunkCell(x, data, gc, lo, hi, i, e);
    ChunkCell(x, data, gc, lo, hi, j, e);
    DecayedTerm(x, f, lo, i + 1, j, e);
    AttnTerm(x.beta(i), x.k(i, e), x.k(j, e), x.exp(Cum(x, lo, i + 1, e) - Cum(x, lo, j + 1, e)), Dot(0, e, f, g));
  }

  lemma AttnTerm(b: real, ki: real, kj: real, ex: real, sum: real)
    ensures Times(b, sum) + Times(Times(Times(ki, b), kj), ex) == Times(b, sum + Times(ki, Times(kj, ex)))
  {
    assert ((ki * b) * kj) * ex == b * (ki * (kj * ex)) by {
      assert (ki * b) * kj == b * (ki * kj);
      assert (ki * kj) * ex == ki * (kj * ex);
    }
  }

  /** Row i of -(...).masked_fill(tri0, 0). */
  method AttnRow(ghost x: Slice, data: Data, gc: array2<real>, lo: nat, hi: nat, i: nat) returns (row: seq<real>)
    requires ChunkAt(x, data, gc, lo, hi) && i < hi - lo
    ensures |row| == hi - lo
    ensures forall j :: 0 <= j < |row| ==> row[j] == Shift(System(x, lo), lo)(i, j)
  {
    hide Dot;
    row := [];
    for j := 0 to hi - lo
      invariant |row| == j
      invariant forall l :: 0 <= l < j ==> row[l] == Shift(System(x, lo), lo)(i, l)
    {
      var a := 0.0;
      if j < i {
        a := AttnEntry(x, data, gc, lo, hi, lo + i, lo + j);
      }
      SystemEntry(x, lo, i, j, a);
      row := row + [a];
    }
  }

  /** attn = -(...).masked_fill(tri0, 0). */
  method FillAttn(ghost x: Slice, data: Data, gc: array2<real>, lo: nat, hi: nat) returns (attn: array2<real>)
    requires ChunkAt(x, data, gc, lo, hi)
    ensures fresh(attn) && attn.Length0 == attn.Length1 == hi - lo
    ensures Holds(attn, Shift(System(x, lo), lo))
  {
    attn := new real[hi - lo, hi - lo];
    for i := 0 to hi - lo
      modifies attn
      invariant forall r, l :: 0 <= r < i && 0 <= l < hi - lo ==> attn[r, l] == Shift(System(x, lo), lo)(r, l)
    {
      var row := AttnRow(x, data, gc, lo, hi, i);
      StoreRow(attn, i, row);
    }
  }

  lemma SystemEntry(x: Slice, lo: nat, i: nat, j: nat, a: real)
    requires a == if j < i then System(x, lo)(lo + i, lo + j) else 0.0
    ensures a == Shift(System(x, lo), lo)(i, j)
  {
  }

  /** The inverted attn of one chunk. */
  method InvertedAttn(ghost x: Slice, data: Data, gc: array2<real>, lo: nat, hi: nat) returns (attn: array2<real>)
    requires ChunkAt(x, data, gc, lo, hi)
    ensures fresh(attn) && attn.Length0 == attn.Length1 == hi - lo
    ensures Holds(attn, Shift(InvMat(System(x, lo)), lo))
  {
    attn := FillAttn(x, data, gc, lo, hi);
    assert StrictlyLower(Shift(System(x, lo), lo), 0, hi - lo);
    hide System, Inv;
    ghost var a := Shift(System(x, lo), lo);
    RowRecurrence(attn, a);
    AddEye(attn, a);
    forall i, j | 0 <= i < hi - lo && 0 <= j < hi - lo ensures InvMat(a)(i, j) == Shift(InvMat(System(x, lo)), lo)(i, j) {
      InvShift(System(x, lo), lo, i, j);
    }
  }

  /** Entry i of attn @ y. */
  method AttnEntryTimes(attn: array2<real>, i: nat, y: seq<real>, ghost t: Mat, ghost lo: nat, ghost m: Mat, ghost col: int) returns (s: real)
    requires i < attn.Length0 && |y| == attn.Length1
    requires Holds(attn, Shift(t, lo))
    requires forall j :: 0 <= j < |y| ==> y[j] == m(lo + j, col)
    ensures s == Dot(lo, lo + |y|, Row(t, lo + i), Col(m, col))
  {
    s := 0.0;
    assert Dot(lo, lo, Row(t, lo + i), Col(m, col)) == 0.0;
    hide Dot;
    for j := 0 to |y|
      invariant s == Dot(lo, lo + j, Row(t, lo + i), Col(m, col))
    {
      assert attn[i, j] == Row(t, lo + i)(lo + j);
      assert y[j] == Col(m, col)(lo + j);
      DotStep(lo, j, Row(t, lo + i), Col(m, col));
      s := s + attn[i, j] * y[j];
    }
  }

  /** One column of attn @ m. */
  method AttnTimes(attn: array2<real>, y: seq<real>, ghost t: Mat, ghost lo: nat, ghost m: Mat, ghost col: int) returns (r: seq<real>)
    requires attn.Length0 == |y| == attn.Length1
    requires Holds(attn, Shift(t, lo))
    requires forall j :: 0 <= j < |y| ==> y[j] == m(lo + j, col)
    ensures |r| == |y|
    ensures forall i :: 0 <= i < |y| ==> r[i] == Dot(lo, lo + |y|, Row(t, lo + i), Col(m, col))
  {
    r := [];
    for i := 0 to |y|
      invariant |r| == i
      invariant forall a :: 0 <= a < i ==> r[a] == Dot(lo, lo + |y|, Row(t, lo + a), Col(m, col))
    {
      var s := AttnEntryTimes(attn, i, y, t, lo, m, col);
      r := r + [s];
    }
  }

  /** Rows lo .. hi-1 of the buffer store m, the others are as before. */
  twostate predicate RowsStored(a: array2<real>, lo: nat, hi: nat, m: Mat)
    reads a
  {
    forall i, j :: 0 <= i < a.Length0 && 0 <= j < a.Length1 ==>
      a[i, j] == if lo <= i < hi then m(i, j) else old(a[i, j])
  }

  /** Column d of attn @ v_beta. */
  method ValueColumn(ghost x: Slice, data: Data, gc: array2<real>, lo: nat, hi: nat, attn: array2<real>, d: nat) returns (col: seq<real>)
    requires ChunkAt(x, data, gc, lo, hi) && d < data.vd
    requires attn.Length0 == attn.Length1 == hi - lo && Holds(attn, Shift(InvMat(System(x, lo)), lo))
    ensures |col| == hi - lo && forall i :: lo <= i < hi ==> ValueMat(x, lo, hi)(i, d) == col[i - lo]
  {
    var y := seq(hi - lo, j requires 0 <= j < hi - lo => data.v[lo + j][d] * data.beta[lo + j]);
    col := AttnTimes(attn, y, InvMat(System(x, lo)), lo, VBeta(x), d);
    forall i | lo <= i < hi ensures ValueMat(x, lo, hi)(i, d) == col[i - lo] {
      assert i == lo + (i - lo);
    }
  }

  /** value = attn @ v_beta for one chunk. */
  method StoreValue(ghost x: Slice, data: Data, gc: array2<real>, lo: nat, hi: nat, attn: array2<real>, value: array2<real>)
    requires ChunkAt(x, data, gc, lo, hi) && value != gc && value != attn
    requires attn.Length0 == attn.Length1 == hi - lo && Holds(attn, Shift(InvMat(System(x, lo)), lo))
    requires value.Length0 == |data.q| && value.Length1 == data.vd
    modifies value
    ensures RowsStored(value, lo, hi, ValueMat(x, lo, hi))
  {
    for d := 0 to data.vd
      modifies value
      invariant forall i, j :: 0 <= i < value.Length0 && 0 <= j < value.Length1 ==>
        value[i, j] == if lo <= i < hi && j < d then ValueMat(x, lo, hi)(i, j) else old(value[i, j])
    {
      var col := ValueColumn(x, data, gc, lo, hi, attn, d);
      StoreColumn(value, lo, d, col);
    }
  }

  /** Column e of k_beta * g.exp(). */
  method KDecayColumn(ghost x: Slice, data: Data, gc: array2<real>, lo: nat, hi: nat, e: nat) returns (y: seq<real>)
    requires ChunkAt(x, data, gc, lo, hi) && e < data.kd
    ensures |y| == hi - lo && forall j :: 0 <= j < |y| ==> y[j] == KDecay(x, lo)(lo + j, e)
  {
    y := [];
    for j := lo to hi
      invariant |y| == j - lo && forall l :: 0 <= l < |y| ==> y[l] == KDecay(x, lo)(lo + l, e)
    {
      y := y + [(data.k[j][e] * data.beta[j]) * data.exp(gc[j, e])];
    }
  }

  /** Column e of attn @ (k_beta * g.exp()). */
  method CumDecayColumn(ghost x: Slice, data: Data, gc: array2<real>, lo: nat, hi: nat, attn: array2<real>, e: nat) returns (col: seq<real>)
    requires ChunkAt(x, data, gc, lo, hi) && e < data.kd
    requires attn.Length0 == attn.Length1 == hi - lo && Holds(attn, Shift(InvMat(System(x, lo)), lo))
    ensures |col| == hi - lo && forall i :: lo <= i < hi ==> CumDecay(x, lo, hi)(i, e) == col[i - lo]
  {
    var y := KDecayColumn(x, data, gc, lo, hi, e);
    col := AttnTimes(attn, y, InvMat(System(x, lo)), lo, KDecay(x, lo), e);
    forall i | lo <= i < hi ensures CumDecay(x, lo, hi)(i, e) == col[i - lo] {
      assert i == lo + (i - lo);
    }
  }

  /** k_cumdecay = attn @ (k_beta * g.exp()) for one chunk. */
  method StoreCumDecay(ghost x: Slice, data: Data, gc: array2<real>, lo: nat, hi: nat, attn: array2<real>, kcd: array2<real>)
    requires ChunkAt(x, data, gc, lo, hi) && kcd != gc && kcd != attn
    requires attn.Length0 == attn.Length1 == hi - lo && Holds(attn, Shift(InvMat(System(x, lo)), lo))
    requires kcd.Length0 == |data.q| && kcd.Length1 == data.kd
    modifies kcd
    ensures RowsStored(kcd, lo, hi, CumDecay(x, lo, hi))
  {
    for e := 0 to data.kd
      modifies kcd
      invariant forall i, j :: 0 <= i < kcd.Length0 && 0 <= j < kcd.Length1 ==>
        kcd[i, j] == if lo <= i < hi && j < e then CumDecay(x, lo, hi)(i, j) else old(kcd[i, j])
    {
      var col := CumDecayColumn(x, data, gc, lo, hi, attn, e);
      StoreColumn(kcd, lo, e, col);
    }
  }

  // ---- The chunk loop ------------------------------------------------------------

  /** Row r of v_i - k_cumdecay @ state. */
  method VNewRow(value: array2<real>, kcd: array2<real>, state: array2<real>, r: nat, ghost val: Mat, ghost cd: Mat, ghost s: Mat) returns (row: seq<real>)
    requires r < value.Length0 && r < kcd.Length0
    requires value.Length1 == state.Length1 && kcd.Length1 == state.Length0
    requires Holds(state, s)
    requires forall d :: 0 <= d < value.Length1 ==> value[r, d] == val(r, d)
    requires forall e :: 0 <= e < kcd.Length1 ==> kcd[r, e] == cd(r, e)
    ensures |row| == value.Length1
    ensures forall d :: 0 <= d < |row| ==> row[d] == val(r, d) - Dot(0, kcd.Length1, Row(cd, r), Col(s, d))
  {
    row := [];
    for d := 0 to value.Length1
      invariant |row| == d
      invariant forall c :: 0 <= c < d ==> row[c] == val(r, c) - Dot(0, kcd.Length1, Row(cd, r), Col(s, c))
    {
      var p := 0.0;
      for e := 0 to kcd.Length1
        invariant p == Dot(0, e, Row(cd, r), Col(s, d))
      {
        p := p + kcd[r, e] * state[e, d];
      }
      row := row + [value[r, d] - p];
    }
  }

  /** v_new of one chunk: the recurrence's residuals. */
  method VNew(ghost x: Slice, data: Data, lo: nat, hi: nat, value: array2<real>, kcd: array2<real>, state: array2<real>, ghost s0: Mat) returns (vnew: array2<real>)
    requires IsExp(x.exp) && x.kd == data.kd && lo < hi <= value.Length0 == kcd.Length0
    requires value.Length1 == state.Length1 == data.vd && kcd.Length1 == state.Length0 == data.kd
    requires Holds(state, StateAt(Tok(x), x.kd, s0, lo))
    requires forall i, d :: lo <= i < hi && 0 <= d < data.vd ==> value[i, d] == ValueMat(x, lo, hi)(i, d)
    requires forall i, e :: lo <= i < hi && 0 <= e < data.kd ==> kcd[i, e] == CumDecay(x, lo, hi)(i, e)
    ensures fresh(vnew) && vnew.Length0 == hi - lo && vnew.Length1 == data.vd
    ensures HoldsResiduals(x, s0, lo, vnew)
  {
    hide StateAt, Residuals, Dot, ValueMat, CumDecay;
    vnew := new real[hi - lo, data.vd];
    for i := 0 to hi - lo
      modifies vnew
      invariant forall r, d :: 0 <= r < i && 0 <= d < data.vd ==> vnew[r, d] == Residuals(x, s0, d)(lo + r)
    {
      var row := VNewRow(value, kcd, state, lo + i, ValueMat(x, lo, hi), CumDecay(x, lo, hi), StateAt(Tok(x), x.kd, s0, lo));
      forall d | 0 <= d < data.vd ensures row[d] == Residuals(x, s0, d)(lo + i) {
        VNewIsResidual(x, s0, lo, hi, lo + i, d);
      }
      StoreRow(vnew, i, row);
    }
  }

  /** vnew stores the residuals of tokens lo .. hi-1. */
  ghost predicate HoldsResiduals(x: Slice, s0: Mat, lo: nat, vnew: array2<real>)
    reads vnew
  {
    forall i, d :: 0 <= i < vnew.Length0 && 0 <= d < vnew.Length1 ==> vnew[i, d] == Residuals(x, s0, d)(lo + i)
  }

  /** (q_i * g_i.exp()) @ state, one entry. */
  method InterEntry(ghost x: Slice, data: Data, gc: array2<real>, lo: nat, hi: nat, i: nat, d: nat, state: array2<real>, ghost s: Mat) returns (r: real)
    requires ChunkAt(x, data, gc, lo, hi) && lo <= i < hi && d < data.vd
    requires state.Length0 == data.kd && state.Length1 == data.vd && Holds(state, s)
    ensures r == Dot(0, x.kd, Row(QDecay(x, lo), i), Col(s, d))
  {
    r := 0.0;
    for e := 0 to data.kd
      invariant r == Dot(0, e, Row(QDecay(x, lo), i), Col(s, d))
    {
      r := r + (data.q[i][e] * data.exp(gc[i, e])) * state[e, d];
    }
  }

  /** attn_intra @ v_new, one entry; the mask is tri1. */
  method IntraRead(ghost x: Slice, data: Data, gc: array2<real>, lo: nat, hi: nat, i: nat, d: nat, vnew: array2<real>, ghost u: Vec) returns (r: real)
    requires ChunkAt(x, data, gc, lo, hi) && lo <= i < hi && d < vnew.Length1
    requires vnew.Length0 == hi - lo && forall j :: 0 <= j < hi - lo ==> vnew[j, d] == u(lo + j)
    ensures r == Dot(lo, hi, Row(Intra(x, lo), i), u)
  {
    hide Intra;
    r := 0.0;
    for j := lo to hi
      invariant r == Dot(lo, j, Row(Intra(x, lo), i), u)
    {
      var w := IntraEntry(x, data, gc, lo, hi, i, j);
      assert vnew[j - lo, d] == u(lo + (j - lo));
      r := r + w * vnew[j - lo, d];
    }
  }

  /** One entry of attn_inter + attn_intra @ v_new. */
  method OutEntry(ghost x: Slice, data: Data, gc: array2<real>, lo: nat, hi: nat, i: nat, d: nat, state: array2<real>, vnew: array2<real>, ghost s0: Mat) returns (r: real)
    requires ChunkAt(x, data, gc, lo, hi) && IsExp(x.exp) && lo <= i < hi && d < data.vd
    requires state.Length0 == data.kd && state.Length1 == data.vd && Holds(state, StateAt(Tok(x), x.kd, s0, lo))
    requires vnew.Length0 == hi - lo && vnew.Length1 == data.vd && HoldsResiduals(x, s0, lo, vnew)
    ensures r == OutAt(Tok(x), x.kd, s0, i)(d)
  {
    var inter := InterEntry(x, data, gc, lo, hi, i, d, state, StateAt(Tok(x), x.kd, s0, lo));
    var intra := IntraRead(x, data, gc, lo, hi, i, d, vnew, Residuals(x, s0, d));
    ChunkOutput(x, s0, lo, hi, i, d);
    r := inter + intra;
  }

  /** (q_i * k_j * decay).sum(-1), masked above the diagonal. */
  method IntraEntry(ghost x: Slice, data: Data, gc: array2<real>, lo: nat, hi: nat, i: nat, j: nat) returns (s: real)
    requires ChunkAt(x, data, gc, lo, hi) && lo <= j < hi && lo <= i < hi
    ensures s == Intra(x, lo)(i, j)
  {
    s := 0.0;
    if j > i { return; }
    ghost var f, g := Row(x.q, i), Col(Decayed(x, lo, i + 1), j);
    assert x.exp == data.exp && x.kd == data.kd;
    assert Dot(0, 0, f, g) == 0.0;
    hide ChunkAt, Dot, Decayed, Cum, Times;
    for e := 0 to data.kd
      invariant s == Dot(0, e, f, g)
    {
      ChunkCell(x, data, gc, lo, hi, i, e);
      ChunkCell(x, data, gc, lo, hi, j, e);
      DecayedTerm(x, f, lo, i + 1, j, e);
      var ex := data.exp(gc[i, e] - gc[j, e]);
      Assoc2(x.q(i, e), x.k(j, e), ex);
      s := s + Times(Times(data.q[i][e], data.k[j][e]), ex);
    }
  }

  lemma Assoc2(a: real, b: real, c: real)
    ensures Times(Times(a, b), c) == Times(a, Times(b, c))
  {
  }

  /** (k * (g_last - g).exp()).T @ v_new, one entry. */
  method KeyUpdate(ghost x: Slice, data: Data, gc: array2<real>, lo: nat, hi: nat, e: nat, d: nat, vnew: array2<real>, ghost u: Vec) returns (r: real)
    requires ChunkAt(x, data, gc, lo, hi) && e < data.kd && d < vnew.Length1
    requires vnew.Length0 == hi - lo && forall j :: 0 <= j < hi - lo ==> vnew[j, d] == u(lo + j)
    ensures r == Dot(lo, hi, Row(Decayed(x, lo, hi), e), u)
  {
    var last := gc[hi - 1, e];
    r := 0.0;
    for j := lo to hi
      invariant r == Dot(lo, j, Row(Decayed(x, lo, hi), e), u)
    {
      assert vnew[j - lo, d] == u(lo + (j - lo));
      r := r + (data.k[j][e] * data.exp(last - gc[j, e])) * vnew[j - lo, d];
    }
  }

  /** One entry of state * g_last.exp() + (k * (g_last - g).exp()).T @ v_new. */
  method StateEntry(ghost x: Slice, data: Data, gc: array2<real>, lo: nat, hi: nat, e: nat, d: nat, before: real, vnew: array2<real>, ghost s0: Mat) returns (r: real)
    requires ChunkAt(x, data, gc, lo, hi) && IsExp(x.exp) && e < data.kd && d < data.vd
    requires before == StateAt(Tok(x), x.kd, s0, lo)(e, d)
    requires vnew.Length0 == hi - lo && vnew.Length1 == data.vd && HoldsResiduals(x, s0, lo, vnew)
    ensures r == StateAt(Tok(x), x.kd, s0, hi)(e, d)
  {
    ghost var s, u := StateAt(Tok(x), x.kd, s0, lo), Residuals(x, s0, d);
    ClosedForm(x, s0, lo, hi, e, d);
    r := ClosedEntry(x, data, gc, lo, hi, e, d, before, vnew, s, u);
  }

  method ClosedEntry(ghost x: Slice, data: Data, gc: array2<real>, lo: nat, hi: nat, e: nat, d: nat, before: real, vnew: array2<real>, ghost s: Mat, ghost u: Vec) returns (r: real)
    requires ChunkAt(x, data, gc, lo, hi) && e < data.kd && d < vnew.Length1
    requires before == s(e, d)
    requires vnew.Length0 == hi - lo && forall j :: 0 <= j < hi - lo ==> vnew[j, d] == u(lo + j)
    ensures r == Closed(x, lo, hi, s, u, d)(e)
  {
    var acc := KeyUpdate(x, data, gc, lo, hi, e, d, vnew, u);
    r := before * data.exp(gc[hi - 1, e]) + acc;
  }

  /** core_attn_out[:, :, c] = ... for every row of the chunk. */
  method StoreOutput(ghost x: Slice, data: Data, gc: array2<real>, lo: nat, hi: nat, state: array2<real>, vnew: array2<real>, out: array2<real>, ghost s0: Mat)
    requires ChunkAt(x, data, gc, lo, hi) && IsExp(x.exp)
    requires state.Length0 == data.kd && state.Length1 == data.vd && Holds(state, StateAt(Tok(x), x.kd, s0, lo))
    requires vnew.Length0 == hi - lo && vnew.Length1 == data.vd && HoldsResiduals(x, s0, lo, vnew)
    requires out != gc && out != state && out != vnew && out.Length0 == |data.q| && out.Length1 == data.vd
    requires OutRows(out, Tok(x), x.kd, s0, lo)
    modifies out
    ensures OutRows(out, Tok(x), x.kd, s0, hi)
  {
    for i := lo to hi
      modifies out
      invariant OutRows(out, Tok(x), x.kd, s0, i)
    {
      var row := OutRow(x, data, gc, lo, hi, i, state, vnew, s0);
      StoreRow(out, i, row);
    }
  }

  method OutRow(ghost x: Slice, data: Data, gc: array2<real>, lo: nat, hi: nat, i: nat, state: array2<real>, vnew: array2<real>, ghost s0: Mat) returns (row: seq<real>)
    requires ChunkAt(x, data, gc, lo, hi) && IsExp(x.exp) && lo <= i < hi
    requires state.Length0 == data.kd && state.Length1 == data.vd && Holds(state, StateAt(Tok(x), x.kd, s0, lo))
    requires vnew.Length0 == hi - lo && vnew.Length1 == data.vd && HoldsResiduals(x, s0, lo, vnew)
    ensures |row| == data.vd && forall d :: 0 <= d < |row| ==> row[d] == OutAt(Tok(x), x.kd, s0, i)(d)
  {
    hide OutAt, StateAt;
    row := [];
    for d := 0 to data.vd
      invariant |row| == d && forall c :: 0 <= c < d ==> row[c] == OutAt(Tok(x), x.kd, s0, i)(c)
    {
      var r := OutEntry(x, data, gc, lo, hi, i, d, state, vnew, s0);
      row := row + [r];
    }
  }

  /** state = ..., rewritten in place. */
  method AdvanceState(ghost x: Slice, data: Data, gc: array2<real>, lo: nat, hi: nat, state: array2<real>, vnew: array2<real>, ghost s0: Mat)
    requires ChunkAt(x, data, gc, lo, hi) && IsExp(x.exp) && state != gc && state != vnew
    requires state.Length0 == data.kd && state.Length1 == data.vd && Holds(state, StateAt(Tok(x), x.kd, s0, lo))
    requires vnew.Length0 == hi - lo && vnew.Length1 == data.vd && HoldsResiduals(x, s0, lo, vnew)
    modifies state
    ensures Holds(state, StateAt(Tok(x), x.kd, s0, hi))
  {
    ghost var s, next := StateAt(Tok(x), x.kd, s0, lo), StateAt(Tok(x), x.kd, s0, hi);
    for e := 0 to data.kd
      modifies state
      invariant forall a, c :: 0 <= a < data.kd && 0 <= c < data.vd ==> state[a, c] == if a < e then next(a, c) else s(a, c)
    {
      for d := 0 to data.vd
        modifies state
        invariant forall a, c :: 0 <= a < data.kd && 0 <= c < data.vd ==>
          state[a, c] == if a < e || (a == e && c < d) then next(a, c) else s(a, c)
      {
        var r := StateEntry(x, data, gc, lo, hi, e, d, state[e, d], vnew, s0);
        state[e, d] := r;
      }
    }
  }

  // ---- The whole forward -----------------------------------------------------------

  /** One chunk: v_new, then outputs from the carried state, then the state. */
  method ChunkStep(ghost x: Slice, data: Data, gc: array2<real>, lo: nat, hi: nat, value: array2<real>, kcd: array2<real>, state: array2<real>, out: array2<real>, ghost s0: Mat)
    requires ChunkAt(x, data, gc, lo, hi) && IsExp(x.exp)
    requires value.Length0 == kcd.Length0 == out.Length0 == |data.q|
    requires value.Length1 == state.Length1 == out.Length1 == data.vd && kcd.Length1 == state.Length0 == data.kd
    requires out != gc && out != state && state != gc && out != value && out != kcd && state != value && state != kcd
    requires forall i, d :: lo <= i < hi && 0 <= d < data.vd ==> value[i, d] == ValueMat(x, lo, hi)(i, d)
    requires forall i, e :: lo <= i < hi && 0 <= e < data.kd ==> kcd[i, e] == CumDecay(x, lo, hi)(i, e)
    requires Holds(state, StateAt(Tok(x), x.kd, s0, lo)) && OutRows(out, Tok(x), x.kd, s0, lo)
    modifies state, out
    ensures Holds(state, StateAt(Tok(x), x.kd, s0, hi)) && OutRows(out, Tok(x), x.kd, s0, hi)
  {
    var vnew := VNew(x, data, lo, hi, value, kcd, state, s0);
    StoreOutput(x, data, gc, lo, hi, state, vnew, out, s0);
    AdvanceState(x, data, gc, lo, hi, state, vnew, s0);
  }

  /** The slice the padded data stands for. */
  ghost predicate DataOf(x: Slice, data: Data) {
    && x.exp == data.exp && x.kd == data.kd
    && Rect(data.q, |data.q|, data.kd) && Rect(data.k, |data.q|, data.kd) && Rect(data.v, |data.q|, data.vd) && |data.beta| == |data.q|
    && x.q == AsMat(data.q) && x.k == AsMat(data.k) && x.v == AsMat(data.v) && x.beta == AsVec(data.beta)
  }

  /** gc holds the log gates summed from the start of each row's chunk. */
  ghost predicate CumReady(x: Slice, data: Data, size: nat, gc: array2<real>)
    requires size > 0
    reads gc
  {
    && gc.Length0 == |data.q| && gc.Length1 == data.kd
    && (forall t, e :: 0 <= t < |data.q| && 0 <= e < data.kd ==> gc[t, e] == Cum(x, t - t % size, t + 1, e))
  }

  /** g.cumsum(dim=-2), restarted at every chunk. */
  method GateCumsum(ghost x: Slice, data: Data, g: seq<seq<real>>, size: nat) returns (gc: array2<real>)
    requires size > 0 && DataOf(x, data) && Rect(g, |data.q|, data.kd) && x.g == AsMat(g)
    ensures fresh(gc) && CumReady(x, data, size, gc)
  {
    gc := new real[|data.q|, data.kd];
    for t := 0 to |data.q|
      modifies gc
      invariant forall r, e :: 0 <= r < t && 0 <= e < data.kd ==> gc[r, e] == Cum(x, r - r % size, r + 1, e)
    {
      for e := 0 to data.kd
        modifies gc
        invariant forall r, c :: 0 <= r < |data.q| && 0 <= c < data.kd && (r < t || (r == t && c < e)) ==> gc[r, c] == Cum(x, r - r % size, r + 1, c)
      {
        var before := if t % size == 0 then 0.0 else gc[t - 1, e];
        CumStep(x, size, t, e);
        gc[t, e] := before + g[t][e];
      }
    }
  }

  lemma CumStep(x: Slice, size: nat, t: nat, e: int)
    requires size > 0
    ensures Cum(x, t - t % size, t + 1, e) == (if t % size == 0 then 0.0 else Cum(x, (t - 1) - (t - 1) % size, t, e)) + x.g(t, e)
  {
    var lo := t - t % size;
    assert lo <= t;
    assert Cum(x, lo, t + 1, e) == Cum(x, lo, t, e) + Col(x.g, e)(t);
    if t % size != 0 {
      PrevMod(size, t);
    }
  }

  lemma PrevMod(size: nat, t: nat)
    requires size > 0 && t % size != 0
    ensures t > 0 && (t - 1) % size == t % size - 1
  {
    DivMod(t, size);
    ModOf(size, t / size, t % size - 1);
  }

  lemma ModOf(size: nat, q: nat, r: nat)
    requires r < size
    ensures (q * size + r) / size == q && (q * size + r) % size == r
  {
    DivUnique(q * size + r, size, q);
  }

  /** Chunk c covers rows c * size .. (c + 1) * size - 1. */
  lemma ChunkData(x: Slice, data: Data, gc: array2<real>, size: nat, c: nat)
    requires size > 0 && DataOf(x, data) && c * size + size <= |data.q|
    requires CumReady(x, data, size, gc)
    ensures ChunkAt(x, data, gc, c * size, c * size + size)
  {
    var lo := c * size;
    forall t, e | lo <= t < lo + size && 0 <= e < x.kd ensures gc[t, e] == Cum(x, lo, t + 1, e) {
      ModOf(size, c, t - lo);
    }
  }

  /** First row of the chunk that holds row i. */
  function ChunkStart(size: nat, i: nat): nat
    requires size > 0
  {
    i - i % size
  }

  lemma ChunkStarts(size: nat, c: nat)
    requires size > 0
    ensures forall i: nat :: c * size <= i < c * size + size ==> ChunkStart(size, i) == c * size
  {
    forall i: nat | c * size <= i < c * size + size ensures ChunkStart(size, i) == c * size {
      ModOf(size, c, i - c * size);
    }
  }

  /** Rows below n of value are those of their chunks. */
  ghost predicate ValueReady(x: Slice, size: nat, n: nat, value: array2<real>)
    requires size > 0
    reads value
  {
    forall i, d :: 0 <= i < n && i < value.Length0 && 0 <= d < value.Length1 ==>
      value[i, d] == ValueMat(x, ChunkStart(size, i), ChunkStart(size, i) + size)(i, d)
  }

  /** Rows below n of k_cumdecay are those of their chunks. */
  ghost predicate DecayReady(x: Slice, size: nat, n: nat, kcd: array2<real>)
    requires size > 0
    reads kcd
  {
    forall i, e :: 0 <= i < n && i < kcd.Length0 && 0 <= e < kcd.Length1 ==>
      kcd[i, e] == CumDecay(x, ChunkStart(size, i), ChunkStart(size, i) + size)(i, e)
  }

  /** value and k_cumdecay for every chunk, before the chunk loop. */
  method Prepare(ghost x: Slice, data: Data, gc: array2<real>, size: nat, chunks: nat) returns (value: array2<real>, kcd: array2<real>)
    requires size > 0 && DataOf(x, data) && chunks * size == |data.q|
    requires CumReady(x, data, size, gc)
    ensures fresh(value) && fresh(kcd) && value != kcd && value.Length0 == kcd.Length0 == |data.q|
    ensures value.Length1 == data.vd && kcd.Length1 == data.kd
    ensures ValueReady(x, size, |data.q|, value) && DecayReady(x, size, |data.q|, kcd)
  {
    value := new real[|data.q|, data.vd];
    kcd := new real[|data.q|, data.kd];
    for c := 0 to chunks
      modifies value, kcd
      invariant ValueReady(x, size, c * size, value) && DecayReady(x, size, c * size, kcd)
    {
      BlockFits(c, chunks, size);
      ChunkData(x, data, gc, size, c);
      PrepareChunk(x, data, gc, size, c, value, kcd);
      MulSucc(c, size);
    }
  }

  method PrepareChunk(ghost x: Slice, data: Data, gc: array2<real>, size: nat, c: nat, value: array2<real>, kcd: array2<real>)
    requires size > 0 && value != kcd && value != gc && kcd != gc
    requires ChunkAt(x, data, gc, c * size, c * size + size)
    requires value.Length0 == kcd.Length0 == |data.q| && value.Length1 == data.vd && kcd.Length1 == data.kd
    requires ValueReady(x, size, c * size, value) && DecayReady(x, size, c * size, kcd)
    modifies value, kcd
    ensures ValueReady(x, size, c * size + size, value) && DecayReady(x, size, c * size + size, kcd)
  {
    var attn := InvertedAttn(x, data, gc, c * size, c * size + size);
    PrepareValue(x, data, gc, size, c, attn, value);
    PrepareDecay(x, data, gc, size, c, attn, kcd);
  }

  method PrepareValue(ghost x: Slice, data: Data, gc: array2<real>, size: nat, c: nat, attn: array2<real>, value: array2<real>)
    requires size > 0 && value != gc && value != attn
    requires ChunkAt(x, data, gc, c * size, c * size + size)
    requires attn.Length0 == attn.Length1 == size && Holds(attn, Shift(InvMat(System(x, c * size)), c * size))
    requires value.Length0 == |data.q| && value.Length1 == data.vd && ValueReady(x, size, c * size, value)
    modifies value
    ensures ValueReady(x, size, c * size + size, value)
  {
    ChunkStarts(size, c);
    hide ChunkAt, ChunkStart, ValueMat, System, InvMat, Holds;
    StoreValue(x, data, gc, c * size, c * size + size, attn, value);
  }

  method PrepareDecay(ghost x: Slice, data: Data, gc: array2<real>, size: nat, c: nat, attn: array2<real>, kcd: array2<real>)
    requires size > 0 && kcd != gc && kcd != attn
    requires ChunkAt(x, data, gc, c * size, c * size + size)
    requires attn.Length0 == attn.Length1 == size && Holds(attn, Shift(InvMat(System(x, c * size)), c * size))
    requires kcd.Length0 == |data.q| && kcd.Length1 == data.kd && DecayReady(x, size, c * size, kcd)
    modifies kcd
    ensures DecayReady(x, size, c * size + size, kcd)
  {
    ChunkStarts(size, c);
    hide ChunkAt, ChunkStart, CumDecay, System, InvMat, Holds;
    StoreCumDecay(x, data, gc, c * size, c * size + size, attn, kcd);
  }

  /** Iteration c of the chunk loop. */
  method LoopBody(ghost x: Slice, data: Data, gc: array2<real>, size: nat, chunks: nat, c: nat, value: array2<real>, kcd: array2<real>, state: array2<real>, out: array2<real>, ghost s0: Mat)
    requires size > 0 && DataOf(x, data) && IsExp(x.exp) && c < chunks && chunks * size == |data.q|
    requires CumReady(x, data, size, gc)
    requires value.Length0 == kcd.Length0 == out.Length0 == |data.q|
    requires value.Length1 == state.Length1 == out.Length1 == data.vd && kcd.Length1 == state.Length0 == data.kd
    requires out != gc && out != state && state != gc && out != value && out != kcd && state != value && state != kcd
    requires ValueReady(x, size, |data.q|, value) && DecayReady(x, size, |data.q|, kcd)
    requires Holds(state, StateAt(Tok(x), x.kd, s0, c * size)) && OutRows(out, Tok(x), x.kd, s0, c * size)
    modifies state, out
    ensures Holds(state, StateAt(Tok(x), x.kd, s0, c * size + size)) && OutRows(out, Tok(x), x.kd, s0, c * size + size)
  {
    BlockFits(c, chunks, size);
    ChunkData(x, data, gc, size, c);
    ChunkStarts(size, c);
    ChunkStep(x, data, gc, c * size, c * size + size, value, kcd, state, out, s0);
  }

  /** The chunked forward on prepared buffers. */
  method ChunkLoop(ghost x: Slice, data: Data, gc: array2<real>, size: nat, chunks: nat, value: array2<real>, kcd: array2<real>, state: array2<real>, ghost s0: Mat) returns (out: array2<real>)
    requires size > 0 && DataOf(x, data) && IsExp(x.exp) && chunks * size == |data.q|
    requires CumReady(x, data, size, gc)
    requires value.Length0 == kcd.Length0 == |data.q|
    requires value.Length1 == state.Length1 == data.vd && kcd.Length1 == state.Length0 == data.kd
    requires state != gc && state != value && state != kcd
    requires ValueReady(x, size, |data.q|, value) && DecayReady(x, size, |data.q|, kcd) && Holds(state, s0)
    modifies state
    ensures fresh(out) && out.Length0 == |data.q| && out.Length1 == data.vd
    ensures OutRows(out, Tok(x), x.kd, s0, |data.q|) && Holds(state, StateAt(Tok(x), x.kd, s0, |data.q|))
  {
    assert Holds(state, StateAt(Tok(x), x.kd, s0, 0));
    hide StateAt, OutAt;
    out := new real[|data.q|, data.vd]((i, j) => 0.0);
    for c := 0 to chunks
      modifies state, out
      invariant OutRows(out, Tok(x), x.kd, s0, c * size) && Holds(state, StateAt(Tok(x), x.kd, s0, c * size))
    {
      LoopBody(x, data, gc, size, chunks, c, value, kcd, state, out, s0);
      MulSucc(c, size);
    }
  }

  /** The padded run on all rows, before the padding rows are dropped. */
  method PaddedForward(ghost x: Slice, data: Data, g: seq<seq<real>>, size: nat, initial: seq<seq<real>>) returns (full: array2<real>, state: array2<real>)
    requires size > 0 && DataOf(x, data) && IsExp(x.exp) && (|data.q| / size) * size == |data.q|
    requires Rect(g, |data.q|, data.kd) && x.g == AsMat(g)
    requires Rect(initial, data.kd, data.vd)
    ensures full.Length0 == |data.q| && full.Length1 == data.vd && state.Length0 == data.kd && state.Length1 == data.vd
    ensures OutRows(full, Tok(x), x.kd, AsMat(initial), |data.q|)
    ensures Holds(state, StateAt(Tok(x), x.kd, AsMat(initial), |data.q|))
  {
    var gc := GateCumsum(x, data, g, size);
    var chunks := |data.q| / size;
    var value, kcd := Prepare(x, data, gc, size, chunks);
    state := new real[data.kd, data.vd]((e, d) requires 0 <= e < data.kd && 0 <= d < data.vd => initial[e][d]);
    full := ChunkLoop(x, data, gc, size, chunks, value, kcd, state, AsMat(initial));
  }

  /** _kda_chunk_ref on one slice. For every length, chunk size, dimension, gate,
      beta and initial state it returns the token recurrence's rows and state. */
  method ChunkForward(exp: real -> real, scale: real, kd: nat, vd: nat, q: seq<seq<real>>, k: seq<seq<real>>, v: seq<seq<real>>, g: seq<seq<real>>, beta: seq<real>, size: nat, initial: seq<seq<real>>)
    returns (out: array2<real>, state: array2<real>)
    requires IsExp(exp) && size > 0
    requires Rect(q, |q|, kd) && Rect(k, |q|, kd) && Rect(v, |q|, vd) && Rect(g, |q|, kd) && |beta| == |q|
    requires Rect(initial, kd, vd)
    ensures out.Length0 == |q| && out.Length1 == vd && state.Length0 == kd && state.Length1 == vd
    ensures OutRows(out, Reference(exp, scale, q, k, v, g, beta), kd, AsMat(initial), |q|)
    ensures Holds(state, StateAt(Reference(exp, scale, q, k, v, g, beta), kd, AsMat(initial), |q|))
  {
    hide StateAt, OutAt, Reference;
    var pad := (size - |q| % size) % size;
    PadExact(size, |q|);
    var data := Data(exp, kd, vd, ScaleRows(Pad(q, kd, pad), scale), Pad(k, kd, pad), Pad(v, vd, pad), PadVec(beta, pad));
    var gp := Pad(g, kd, pad);
    ghost var x := Slice(exp, kd, AsMat(data.q), AsMat(data.k), AsMat(data.v), AsMat(gp), AsVec(data.beta));
    var full;
    full, state := PaddedForward(x, data, gp, size, initial);
    out := new real[|q|, vd]((i, j) requires 0 <= i < |q| && 0 <= j < vd reads full => full[i, j]);
    ghost var ref := Reference(exp, scale, q, k, v, g, beta);
    SameTokens(x, exp, scale, kd, vd, q, k, v, g, beta, pad);
    forall t: nat, d | t < |q| && 0 <= d < vd ensures out[t, d] == OutAt(ref, kd, AsMat(initial), t)(d) {
      assert full[t, d] == OutAt(Tok(x), kd, AsMat(initial), t)(d);
      OutCongr(Tok(x), ref, kd, vd, AsMat(initial), t, d);
    }
    forall e, d | 0 <= e < kd && 0 <= d < vd
      ensures state[e, d] == StateAt(ref, kd, AsMat(initial), |q|)(e, d)
    {
      PaddingKeepsState(x, AsMat(initial), |q|, |q| + pad, e, d);
      StateCongr(Tok(x), ref, kd, vd, AsMat(initial), |q|, e, d);
    }
  }

  /** Padding and scaling leave every token as the reference has it. */
  lemma SameTokens(x: Slice, exp: real -> real, scale: real, kd: nat, vd: nat, q: seq<seq<real>>, k: seq<seq<real>>, v: seq<seq<real>>, g: seq<seq<real>>, beta: seq<real>, pad: nat)
    requires Rect(q, |q|, kd) && Rect(k, |q|, kd) && Rect(v, |q|, vd) && Rect(g, |q|, kd) && |beta| == |q|
    requires x == Slice(exp, kd, AsMat(ScaleRows(Pad(q, kd, pad), scale)), AsMat(Pad(k, kd, pad)), AsMat(Pad(v, vd, pad)), AsMat(Pad(g, kd, pad)), AsVec(PadVec(beta, pad)))
    ensures forall t :: SameToken(Tok(x), Reference(exp, scale, q, k, v, g, beta), kd, vd, t)
    ensures forall t, c :: |q| <= t ==> x.k(t, c) == 0.0 && x.g(t, c) == 0.0
  {
  }

  lemma PadExact(size: nat, len: nat)
    requires size > 0
    ensures var total := len + (size - len % size) % size; (total / size) * size == total
  {
    var q, r := len / size, len % size;
    DivMod(len, size);
    if r == 0 {
      ModOf(size, 1, 0);
      ModOf(size, q, 0);
    } else {
      ModOf(size, 0, size - r);
      MulSucc(q, size);
      ModOf(size, q + 1, 0);
    }
  }

  /** The tokens the recurrence runs on: gates exp(g), q scaled. */
  ghost function Reference(exp: real -> real, scale: real, q: seq<seq<real>>, k: seq<seq<real>>, v: seq<seq<real>>, g: seq<seq<real>>, beta: seq<real>): Tokens {
    var gm := AsMat(g);
    Tokens(AsMat(ScaleRows(q, scale)), AsMat(k), AsMat(v), (t, e) => exp(gm(t, e)), AsVec(beta))
  }

  /** The oracle's rows on gates exp(g) and scaled queries, from a zero state,
      are the rows ChunkForward returns from a zero initial state. */
  lemma OracleAgrees(exp: real -> real, scale: real, dim: nat, q: seq<seq<real>>, k: seq<seq<real>>, v: seq<seq<real>>, g: seq<seq<real>>, gates: seq<seq<real>>, beta: seq<real>, t: nat, d: nat)
    requires Rect(q, |q|, dim) && Rect(g, |q|, dim) && Rect(gates, |q|, dim)
    requires forall r, e :: 0 <= r < |q| && 0 <= e < dim ==> gates[r][e] == exp(g[r][e])
    requires t < |q| && d < dim
    ensures OutAt(TokensOf(ScaleRows(q, scale), k, v, gates, beta), dim, Zero(), t)(d)
         == OutAt(Reference(exp, scale, q, k, v, g, beta), dim, Zero(), t)(d)
  {
    OutCongr(TokensOf(ScaleRows(q, scale), k, v, gates, beta), Reference(exp, scale, q, k, v, g, beta), dim, dim, Zero(), t, d);
  }
}
