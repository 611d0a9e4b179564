/** Division and remainder of numbers written as a digit sum. */
module MixedRadix {
  function Times(a: nat, b: nat): nat { a * b }

  function Quotient(x: nat, n: nat): nat
    requires n > 0
  {
    x / n
  }

  function Remainder(x: nat, n: nat): nat
    requires n > 0
  {
    x % n
  }

  lemma ProductAtMost(a: nat, b: nat, n: nat)
    requires a <= b
    ensures a * n <= b * n
  {
  }

  lemma Successor(a: nat, n: nat)
    ensures (a + 1) * n == a * n + n
  {
  }

  lemma QuotientDigits(x: nat, n: nat)
    requires n > 0
    ensures x == x / n * n + x % n && x % n < n
  {
  }

  /** The leading part and the last digit of `a * n + b`. */
  lemma Digits(a: nat, b: nat, n: nat)
    requires b < n
    ensures (a * n + b) / n == a && (a * n + b) % n == b
  {
    var x := a * n + b;
    QuotientDigits(x, n);
    var q := x / n;
    if q < a {
      ProductAtMost(q + 1, a, n);
      Successor(q, n);
    } else if q > a {
      ProductAtMost(a + 1, q, n);
      Successor(a, n);
    }
  }

  /** A number of two digits stays below the product of the radixes. */
  lemma DigitsBound(a: nat, b: nat, m: nat, n: nat)
    requires a < m && b < n
    ensures a * n + b < m * n
  {
    ProductAtMost(a + 1, m, n);
    Successor(a, n);
  }

  /** The leading digit of a number below the product of the radixes. */
  lemma LeadingDigit(x: nat, m: nat, n: nat)
    requires x < m * n
    ensures n > 0 && m > 0 && x / n < m
  {
    assert m * n > 0;
    assert m > 0 && n > 0;
    QuotientDigits(x, n);
    if x / n >= m {
      ProductAtMost(m, x / n, n);
    }
  }

  lemma Regroup(a: nat, m: nat, n: nat)
    ensures a * (m * n) == a * m * n
  {
  }

  lemma Multiple(k: nat, n: nat)
    requires n > 0
    ensures k * n % n == 0 && k * n / n == k
  {
    Digits(k, 0, n);
  }
}
