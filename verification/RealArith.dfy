/** Powers of two, and products of reals under a name, so that proofs meet them
    one law at a time. */
module RealArith {

  function Max(a: real, b: real): real { if a < b then b else a }

  /** Two to the e, e of either sign. */
  function Pow2(e: int): real
    decreases if e < 0 then -e else e
  {
    if e == 0 then 1.0 else if e > 0 then 2.0 * Pow2(e - 1) else Pow2(e + 1) / 2.0
  }

  lemma {:induction false} Pow2Step(e: int)
    ensures Pow2(e) > 0.0 && Pow2(e + 1) == 2.0 * Pow2(e)
    decreases if e < 0 then -e else e
  {
    if e > 0 { Pow2Step(e - 1); }
    if e < 0 { Pow2Step(e + 1); }
  }

  lemma {:induction false} Pow2Mono(a: int, b: int)
    requires a <= b
    ensures Pow2(a) <= Pow2(b)
    decreases b - a
  {
    Pow2Step(b - 1);
    if a < b { Pow2Mono(a, b - 1); }
  }

  function Times(a: real, b: real): real { a * b }

  lemma TimesDiff(a: real, b: real, c: real)
    ensures Times(a, c) - Times(b, c) == Times(a - b, c)
  {
  }

  lemma TimesQuotient(a: real, b: real)
    requires b != 0.0
    ensures Times(a / b, b) == a
  {
  }

  /** Between -c and c, times something positive. */
  lemma TimesBounds(d: real, c: real, s: real)
    requires s >= 0.0 && -c <= d <= c
    ensures -Times(c, s) <= Times(d, s) <= Times(c, s)
  {
    assert (c - d) * s >= 0.0 && (c + d) * s >= 0.0;
  }
}
