/** Products and floor quotients of natural numbers. */
module NatArithmetic {

  /** Cancelling a positive factor. */
  lemma LessByFactor(a: int, b: int, d: int)
    requires d > 0 && a * d < b * d
    ensures a < b
  {
  }

  lemma DivisionBounds(a: nat, d: nat)
    requires d > 0
    ensures a / d * d <= a < (a / d + 1) * d
  {
  }

  lemma QuotientUnique(a: nat, d: nat, q: nat)
    requires d > 0 && q * d <= a < (q + 1) * d
    ensures a / d == q
  {
    DivisionBounds(a, d);
    LessByFactor(a / d, q + 1, d);
    LessByFactor(q, a / d + 1, d);
  }

  lemma QuotientMonotone(a: nat, b: nat, d: nat)
    requires a <= b && d > 0
    ensures a / d <= b / d
  {
    DivisionBounds(a, d);
    DivisionBounds(b, d);
    LessByFactor(a / d, b / d + 1, d);
  }

  lemma ProductMonotone(a: nat, b: nat, c: nat)
    requires a <= b
    ensures a * c <= b * c
  {
  }

  lemma QuotientAtLeast(q: nat, a: nat, d: nat)
    requires d > 0 && q * d <= a
    ensures q <= a / d
  {
    DivisionBounds(a, d);
    LessByFactor(q, a / d + 1, d);
  }

  lemma QuotientBelow(q: nat, a: nat, d: nat)
    requires d > 0 && a < q * d
    ensures a / d < q
  {
    DivisionBounds(a, d);
    LessByFactor(a / d, q, d);
  }

  /** Taking bytes off a number from below. */
  lemma ByteSplit(n: nat)
    ensures n / 65536 == n / 256 / 256 && n == n % 256 + 256 * (n / 256)
  {
  }
}
