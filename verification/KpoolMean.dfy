/** The pooled key: a softmax-weighted mean over the tokens of one pool, computed
    with a running maximum, then rotated. */
module KpoolMean {
  import opened ExpLaws
  import opened RealArith
  import opened Sums

  /** One token: its key and its score, component by component. */
  datatype Token = Token(key: seq<real>, score: seq<real>)

  /** The pool's arithmetic: exp, the per-slot score bias, the rotation, the sizes. */
  datatype Pool = Pool(exp: real -> real, ape: seq<seq<real>>, rotate: seq<real> -> seq<real>, dim: nat)
  {
    function Size(): nat { |ape| }

    ghost predicate Good() {
      IsExp(exp) && |ape| > 0 && forall p :: 0 <= p < |ape| ==> |ape[p]| == dim
    }

    ghost predicate Fits(tokens: seq<Token>) {
      |tokens| == |ape| && forall p :: 0 <= p < |tokens| ==> |tokens[p].key| == |tokens[p].score| == dim
    }

    function Score(tokens: seq<Token>, d: int): Vec {
      p => if 0 <= p < |tokens| && p < |ape| && 0 <= d < |tokens[p].score| && d < |ape[p]|
        then tokens[p].score[d] + ape[p][d] else 0.0
    }

    function Key(tokens: seq<Token>, d: int): Vec {
      p => if 0 <= p < |tokens| && 0 <= d < |tokens[p].key| then tokens[p].key[d] else 0.0
    }
  }

  // ---- Weighted sums at a shift ------------------------------------------------------

  /** exp(score - shift), and the same times the key. */
  function Weights(exp: real -> real, score: Vec, shift: real): Vec { p => exp(score(p) - shift) }

  function Weighted(exp: real -> real, score: Vec, key: Vec, shift: real): Vec { p => Times(key(p), exp(score(p) - shift)) }

  function Den(exp: real -> real, score: Vec, n: int, shift: real): real { Sum(0, n, Weights(exp, score, shift)) }

  function Num(exp: real -> real, score: Vec, key: Vec, n: int, shift: real): real {
    Sum(0, n, Weighted(exp, score, key, shift))
  }

  /** The largest of the first n scores. */
  function Largest(score: Vec, n: nat): real
    requires n > 0
  {
    if n == 1 then score(0) else Max(Largest(score, n - 1), score(n - 1))
  }

  /** Softmax in two passes: the maximum, then the weighted mean. */
  function TwoPass(exp: real -> real, score: Vec, key: Vec, n: nat): real
    requires n > 0
  {
    Quotient(Num(exp, score, key, n, Largest(score, n)), Den(exp, score, n, Largest(score, n)))
  }

  function Quotient(a: real, b: real): real { if b == 0.0 then 0.0 else a / b }

  lemma {:induction false} DenPositive(exp: real -> real, score: Vec, n: nat, shift: real)
    requires IsExp(exp) && n > 0
    ensures Den(exp, score, n, shift) > 0.0
  {
    assert ExpAt(exp, score(n - 1) - shift, 0.0);
    if n > 1 {
      DenPositive(exp, score, n - 1, shift);
    } else {
      assert Sum(0, 0, Weights(exp, score, shift)) == 0.0;
    }
  }

  /** Moving the shift rescales every term by the same positive factor. */
  lemma Reshift(exp: real -> real, score: Vec, key: Vec, n: nat, from: real, to: real)
    requires IsExp(exp)
    ensures Den(exp, score, n, to) == Times(exp(from - to), Den(exp, score, n, from))
    ensures Num(exp, score, key, n, to) == Times(exp(from - to), Num(exp, score, key, n, from))
  {
    forall p ensures Weights(exp, score, to)(p) == exp(from - to) * Weights(exp, score, from)(p)
      ensures Weighted(exp, score, key, to)(p) == exp(from - to) * Weighted(exp, score, key, from)(p)
    {
      TermReshift(exp, score, key, p, from, to);
    }
    hide Weights, Weighted;
    SumScale(0, n, exp(from - to), Weights(exp, score, from), Weights(exp, score, to));
    SumScale(0, n, exp(from - to), Weighted(exp, score, key, from), Weighted(exp, score, key, to));
  }

  lemma TermReshift(exp: real -> real, score: Vec, key: Vec, p: int, from: real, to: real)
    requires IsExp(exp)
    ensures Weights(exp, score, to)(p) == exp(from - to) * Weights(exp, score, from)(p)
    ensures Weighted(exp, score, key, to)(p) == exp(from - to) * Weighted(exp, score, key, from)(p)
  {
    assert ExpAt(exp, from - to, score(p) - from);
    assert (from - to) + (score(p) - from) == score(p) - to;
    hide IsExp, Times;
    Scaled(key(p), exp(from - to), exp(score(p) - from));
  }

  lemma Scaled(k: real, a: real, b: real)
    ensures Times(k, a * b) == a * Times(k, b)
  {
  }

  lemma QuotientScaled(c: real, a: real, b: real)
    requires c != 0.0
    ensures Quotient(Times(c, a), Times(c, b)) == Quotient(a, b)
  {
    if b != 0.0 { assert c * b != 0.0; assert (c * a) / (c * b) == a / b; }
  }

  /** The mean does not depend on the shift: the maximum only keeps exp in range. */
  lemma AnyShift(exp: real -> real, score: Vec, key: Vec, n: nat, shift: real)
    requires IsExp(exp) && n > 0
    ensures Quotient(Num(exp, score, key, n, shift), Den(exp, score, n, shift)) == TwoPass(exp, score, key, n)
  {
    var m := Largest(score, n);
    Reshift(exp, score, key, n, m, shift);
    assert ExpAt(exp, m - shift, 0.0);
    QuotientScaled(exp(m - shift), Num(exp, score, key, n, m), Den(exp, score, n, m));
    hide Num, Den, Quotient, Times;
  }

  // ---- The running-maximum loop ---------------------------------------------------------

  datatype Running = MinusInfinity | At(value: real)

  /** One component's running maximum, denominator and numerator. */
  datatype Acc = Acc(max: Running, denom: real, acc: real)

  const START := Acc(MinusInfinity, 0.0, 0.0)

  /** One more slot, one component. exp(-inf) is 0. */
  function Add(exp: real -> real, st: Acc, score: real, key: real): Acc {
    var newMax := if st.max.At? then Max(st.max.value, score) else score;
    var rescale := if st.max.At? then exp(st.max.value - newMax) else 0.0;
    var prob := exp(score - newMax);
    Acc(At(newMax), Times(rescale, st.denom) + prob, Times(rescale, st.acc) + Times(key, prob))
  }

  /** What the loop holds after n slots: the two-pass sums of those slots, taken at
      their own maximum. */
  ghost predicate Follows(exp: real -> real, st: Acc, score: Vec, key: Vec, n: nat) {
    if n == 0 then st == START else
      && st.max == At(Largest(score, n))
      && st.denom == Den(exp, score, n, Largest(score, n))
      && st.acc == Num(exp, score, key, n, Largest(score, n))
  }

  lemma AddFollows(exp: real -> real, st: Acc, score: Vec, key: Vec, n: nat)
    requires IsExp(exp) && Follows(exp, st, score, key, n)
    ensures Follows(exp, Add(exp, st, score(n), key(n)), score, key, n + 1)
  {
    var m := Largest(score, n + 1);
    OneMore(exp, score, key, n, m);
    if n > 0 {
      Reshift(exp, score, key, n, Largest(score, n), m);
      hide Den, Num, Times;
    } else {
      assert Den(exp, score, 0, m) == 0.0 && Num(exp, score, key, 0, m) == 0.0;
      assert Times(0.0, 0.0) == 0.0;
    }
  }

  lemma OneMore(exp: real -> real, score: Vec, key: Vec, n: nat, m: real)
    ensures Den(exp, score, n + 1, m) == Den(exp, score, n, m) + exp(score(n) - m)
    ensures Num(exp, score, key, n + 1, m) == Num(exp, score, key, n, m) + Times(key(n), exp(score(n) - m))
  {
  }

  /** All components, for the first n tokens of a pool. */
  ghost predicate AllFollow(pool: Pool, st: seq<Acc>, tokens: seq<Token>, n: nat) {
    |st| == pool.dim && forall d :: 0 <= d < pool.dim ==> Follows(pool.exp, st[d], pool.Score(tokens, d), pool.Key(tokens, d), n)
  }

  /** One iteration of the loop, componentwise. */
  method AddToken(pool: Pool, st: seq<Acc>, t: Token, p: nat, ghost tokens: seq<Token>) returns (st2: seq<Acc>)
    requires pool.Good() && pool.Fits(tokens) && p < pool.Size() && t == tokens[p] && AllFollow(pool, st, tokens, p)
    ensures AllFollow(pool, st2, tokens, p + 1)
  {
    st2 := seq(pool.dim, d requires 0 <= d < pool.dim => Add(pool.exp, st[d], t.score[d] + pool.ape[p][d], t.key[d]));
    forall d | 0 <= d < pool.dim ensures Follows(pool.exp, st2[d], pool.Score(tokens, d), pool.Key(tokens, d), p + 1) {
      AddFollows(pool.exp, st[d], pool.Score(tokens, d), pool.Key(tokens, d), p);
    }
  }

  /** The pool's vector: the rotated two-pass mean of its tokens. */
  function PoolVector(pool: Pool, tokens: seq<Token>): seq<real>
    requires pool.Size() > 0
  {
    pool.rotate(seq(pool.dim, d requires 0 <= d < pool.dim =>
      TwoPass(pool.exp, pool.Score(tokens, d), pool.Key(tokens, d), pool.Size())))
  }

  /** After the loop: acc / denom, rotated. */
  method Finish(pool: Pool, st: seq<Acc>, ghost tokens: seq<Token>) returns (vector: seq<real>)
    requires pool.Good() && pool.Fits(tokens) && AllFollow(pool, st, tokens, pool.Size())
    ensures vector == PoolVector(pool, tokens)
  {
    forall d | 0 <= d < pool.dim ensures st[d].denom > 0.0 {
      DenPositive(pool.exp, pool.Score(tokens, d), pool.Size(), Largest(pool.Score(tokens, d), pool.Size()));
    }
    hide Den, Num, Largest;
    var mean := seq(pool.dim, d requires 0 <= d < pool.dim => st[d].acc / st[d].denom);
    assert mean == seq(pool.dim, d requires 0 <= d < pool.dim =>
      TwoPass(pool.exp, pool.Score(tokens, d), pool.Key(tokens, d), pool.Size()));
    vector := pool.rotate(mean);
  }

  /** So, before the rotation, component d of a pool's vector is the mean of its keys
      weighted by exp of score plus bias. */
  lemma SoftmaxMean(pool: Pool, tokens: seq<Token>) returns (mean: seq<real>)
    requires pool.Good() && pool.Fits(tokens)
    ensures PoolVector(pool, tokens) == pool.rotate(mean) && |mean| == pool.dim
    ensures forall d :: 0 <= d < pool.dim ==> IsMean(pool, tokens, d, mean[d])
  {
    mean := seq(pool.dim, d requires 0 <= d < pool.dim =>
      TwoPass(pool.exp, pool.Score(tokens, d), pool.Key(tokens, d), pool.Size()));
    forall d | 0 <= d < pool.dim ensures IsMean(pool, tokens, d, mean[d]) {
      var score, key := pool.Score(tokens, d), pool.Key(tokens, d);
      AnyShift(pool.exp, score, key, pool.Size(), 0.0);
      DenPositive(pool.exp, score, pool.Size(), 0.0);
      Unshifted(pool, tokens, d);
      hide Den, Num, TwoPass;
    }
  }

  /** v times the sum of the weights is the weighted sum. */
  ghost predicate IsMean(pool: Pool, tokens: seq<Token>, d: nat, v: real) {
    var w := p => if Within(pool, tokens, d, p) then pool.exp(tokens[p].score[d] + pool.ape[p][d]) else 0.0;
    var total := Sum(0, |pool.ape|, w);
    total > 0.0
    && v == Sum(0, |pool.ape|, p => if Within(pool, tokens, d, p) then Times(tokens[p].key[d], w(p)) else 0.0) / total
  }

  predicate Within(pool: Pool, tokens: seq<Token>, d: nat, p: int) {
    0 <= p < |tokens| && p < |pool.ape| && d < |tokens[p].score| && d < |tokens[p].key| && d < |pool.ape[p]|
  }

  lemma Unshifted(pool: Pool, tokens: seq<Token>, d: nat)
    requires pool.Good() && pool.Fits(tokens) && d < pool.dim
    ensures var w := p => if Within(pool, tokens, d, p) then pool.exp(tokens[p].score[d] + pool.ape[p][d]) else 0.0;
      && Den(pool.exp, pool.Score(tokens, d), pool.Size(), 0.0) == Sum(0, |pool.ape|, w)
      && Num(pool.exp, pool.Score(tokens, d), pool.Key(tokens, d), pool.Size(), 0.0)
        == Sum(0, |pool.ape|, p => if Within(pool, tokens, d, p) then Times(tokens[p].key[d], w(p)) else 0.0)
  {
    var w := p => if Within(pool, tokens, d, p) then pool.exp(tokens[p].score[d] + pool.ape[p][d]) else 0.0;
    var score, key := pool.Score(tokens, d), pool.Key(tokens, d);
    hide Times;
    forall p | 0 <= p < |pool.ape| ensures score(p) - 0.0 == tokens[p].score[d] + pool.ape[p][d] && key(p) == tokens[p].key[d] {
    }
    SumCongr(0, |pool.ape|, Weights(pool.exp, score, 0.0), w);
    SumCongr(0, |pool.ape|, Weighted(pool.exp, score, key, 0.0),
             p => if Within(pool, tokens, d, p) then Times(tokens[p].key[d], w(p)) else 0.0);
  }
}
