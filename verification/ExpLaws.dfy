/** The exponential as a parameter: only the two laws below are assumed of it. */
module ExpLaws {

  ghost predicate ExpAt(exp: real -> real, a: real, b: real) {
    exp(a) > 0.0 && exp(a + b) == exp(a) * exp(b)
  }

  /** What is used of exp: positive, and sums become products. */
  ghost predicate IsExp(exp: real -> real) {
    forall a, b :: ExpAt(exp, a, b)
  }

  /** exp(a) exp(b) = exp(c) whenever c = a + b. */
  lemma ExpSum(exp: real -> real, a: real, b: real, c: real)
    requires IsExp(exp) && c == a + b
    ensures exp(c) == exp(a) * exp(b)
  {
    assert ExpAt(exp, a, b);
  }

  lemma ExpZero(exp: real -> real)
    requires IsExp(exp)
    ensures exp(0.0) == 1.0
  {
    var z := exp(0.0);
    ExpSum(exp, 0.0, 0.0, 0.0);
    assert ExpAt(exp, 0.0, 0.0);
    assert z * (z - 1.0) == 0.0;
  }
}
