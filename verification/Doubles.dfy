/** The row formula as the program evaluates it, in double precision. */
module Doubles {
  import opened Layout

  /** y is x correctly rounded to a double: for positive x in the normal range the error is at most
      a 2^53rd part, and integers (all are small here) are represented exactly. */
  ghost predicate Rounds(x: real, y: real) {
    && x - x / 9007199254740992.0 <= y <= x + x / 9007199254740992.0
    && (x.Floor as real == x ==> y == x)
  }

  /** A real that is not below b although its square exceeds b's by 1 is well above b. */
  lemma Gap(a: real, b: real)
    requires a >= 0.0 && b >= 0.0 && 0.0 < a + b <= 65536.0 && a * a - b * b >= 1.0
    ensures a - b >= 1.0 / 65536.0
  {
    var d, e := a - b, a + b;
    assert d * e >= 1.0 by { assert (a - b) * (a + b) == a * a - b * b; }
    if d < 1.0 / 65536.0 {
      SmallProduct(d, e);
    }
  }

  lemma SmallProduct(d: real, e: real)
    requires d < 1.0 / 65536.0 && 0.0 < e <= 65536.0
    ensures d * e < 1.0
  {
    if d > 0.0 {
      assert d * e <= d * 65536.0;
    } else {
      assert d * e <= 0.0;
    }
  }

  lemma OrderOfSquares(a: real, b: real)
    requires a >= 0.0 && b >= 0.0 && Square(a) <= Square(b)
    ensures a <= b
  {
    if b < a {
      SquareGap(b, a);
    }
  }

  lemma IntegerSquare(n: nat)
    ensures Square(n as real) == (n * n) as real
  {
    CastSquare(n);
  }

  /** Where the rounded quotient lies when the root lies strictly between two multiples of 56. */
  lemma BetweenMultiples(root: real, s: real, d: real, k: int)
    requires 1 <= k <= 585 && Rounds(root, s) && Rounds(s / 56.0, d) && root >= 0.0
    requires (56 * k - 56) as real + 1.0 / 65536.0 <= root <= (56 * k) as real - 1.0 / 65536.0
    ensures (k - 1) as real < d <= k as real
  {
    assert (56 * k - 56) as real + 1.0 / 131072.0 <= s <= (56 * k) as real - 1.0 / 131072.0;
    var x := s / 56.0;
    assert (k - 1) as real + 1.0 / 8388608.0 <= x <= k as real - 1.0 / 8388608.0;
  }

  lemma AtMultiple(root: real, s: real, d: real, k: int)
    requires k >= 1 && root == (56 * k) as real && Rounds(root, s) && Rounds(s / 56.0, d)
    ensures d == k as real
  {
    assert root.Floor == 56 * k;
    assert s / 56.0 == k as real && (k as real).Floor == k;
  }

  lemma CeilingIs(d: real, q: int, k: int)
    requires (k - 1) as real < d <= k as real && (q - 1) as real < d <= q as real
    ensures q == k
  {
  }

  /** Up to 32760 rows, which includes every file the store accepts, evaluating
      `ceil(sqrt(n) / 56) * 56` with a rounded root s and a rounded quotient d gives `Rows`. */
  lemma RowsInDoubles(n: nat, root: real, s: real, d: real, q: int)
    requires n > 0 && Rows(n) <= 32760 && root >= 0.0 && root * root == n as real
    requires Rounds(root, s) && Rounds(s / 56.0, d) && (q - 1) as real < d <= q as real
    ensures 56 * q == Rows(n)
  {
    var r, k := Rows(n), Rows(n) / 56;
    RowsBounds(n);
    assert r == 56 * k && 1 <= k <= 585;
    RootOfRows(n, root, r);
    if n == r * r {
      AtMultiple(root, s, d, k);
    } else {
      BetweenMultiples(root, s, d, k);
    }
    CeilingIs(d, q, k);
  }

  lemma RootOfRows(n: nat, root: real, r: nat)
    requires root >= 0.0 && Square(root) == n as real && 56 <= r <= 32760 && (r - 56) * (r - 56) < n <= r * r
    ensures n == r * r ==> root == r as real
    ensures n < r * r ==> (r - 56) as real + 1.0 / 65536.0 <= root <= r as real - 1.0 / 65536.0
  {
    var m: nat := r - 56;
    IntegerSquare(r);
    IntegerSquare(m);
    var low, high := m as real, r as real;
    OrderOfSquares(low, root);
    OrderOfSquares(root, high);
    if n == r * r {
      OrderOfSquares(high, root);
    } else {
      assert (m * m) as real + 1.0 <= n as real && n as real + 1.0 <= (r * r) as real;
      PositiveRoot(n, root);
      GapOfSquares(root, low);
      GapOfSquares(high, root);
    }
  }

  lemma PositiveRoot(n: nat, root: real)
    requires n > 0 && root >= 0.0 && Square(root) == n as real
    ensures root > 0.0
  {
  }

  lemma GapOfSquares(a: real, b: real)
    requires 0.0 < a && 0.0 <= b && a + b <= 65536.0 && Square(a) - Square(b) >= 1.0
    ensures a - b >= 1.0 / 65536.0
  {
    Gap(a, b);
  }
}
