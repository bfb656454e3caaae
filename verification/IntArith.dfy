/** Multiplication, division and remainder by a positive integer, in the small
    steps the index arithmetic needs. */
module IntArith {

  function Least(a: int, b: int): int { if a < b then a else b }

  /** Two to the d. */
  function TwoToThe(d: nat): nat { if d == 0 then 1 else 2 * TwoToThe(d - 1) }

  lemma MulSucc(a: int, c: int)
    ensures (a + 1) * c == a * c + c
  {
  }

  lemma MulSum(a: int, b: int, c: int)
    ensures (a + b) * c == a * c + b * c
  {
  }

  lemma MulCommute(a: int, b: int)
    ensures a * b == b * a
  {
  }

  lemma MulRotates(a: int, b: int, c: int)
    ensures a * (b * c) == (a * b) * c && a * b == b * a
  {
  }

  lemma {:induction false} MulMono(a: int, b: int, c: nat)
    requires a <= b
    ensures a * c <= b * c
    decreases b - a
  {
    if a < b {
      MulMono(a, b - 1, c);
      MulSucc(b - 1, c);
    }
  }

  /** Block a of size c ends where block a + 1 starts, at or before block b. */
  lemma BlockFits(a: int, b: int, c: nat)
    requires a < b
    ensures a * c + c <= b * c
  {
    MulSucc(a, c);
    MulMono(a + 1, b, c);
  }

  lemma DivMod(i: int, c: nat)
    requires c > 0
    ensures i == (i / c) * c + i % c && 0 <= i % c < c
  {
  }

  /** The quotient is the one block that contains i. */
  lemma DivUnique(i: int, c: nat, b: int)
    requires c > 0 && b * c <= i < b * c + c
    ensures i / c == b && i % c == i - b * c
  {
    DivMod(i, c);
    var q := i / c;
    if q < b {
      BlockFits(q, b, c);
    } else if b < q {
      BlockFits(b, q, c);
    }
  }

  lemma DivBounds(i: int, c: nat)
    requires c > 0
    ensures (i / c) * c <= i < (i / c) * c + c
  {
    DivMod(i, c);
  }

  lemma QuotientNat(n: nat, d: nat)
    requires d > 0
    ensures n / d >= 0
  {
    DivMod(n, d);
    if n / d < 0 { MulMono(n / d, -1, d); }
  }
}
