/** Arithmetic modulo P57 = 2^57 - 13, and the means to prove a modulus prime.

    Primality is what turns "the response is congruent" into "the corruption is detected":
    a product of residues vanishes only when one of its factors does.
  */
module Field {

  const P57: nat := 144115188075855859

  ghost predicate Congruent(a: int, b: int, m: int)
    requires m > 0
  {
    exists t: int :: Multiple(a, b, t, m)
  }

  ghost predicate Multiple(a: int, b: int, t: int, m: int) {
    a - b == t * m
  }

  // ----- congruences -----

  lemma CongruentBy(a: int, b: int, m: int, t: int)
    requires m > 0 && a - b == t * m
    ensures Congruent(a, b, m)
  {
    assert Multiple(a, b, t, m);
  }

  lemma CongruentIffMod(a: int, b: int, m: int)
    requires m > 0
    ensures Congruent(a, b, m) <==> a % m == b % m
  {
    if Congruent(a, b, m) {
      var t :| Multiple(a, b, t, m);
      ModUnique(a, m, b / m + t, b % m);
    }
    if a % m == b % m {
      CongruentBy(a, b, m, a / m - b / m);
    }
  }

  lemma ModUnique(a: int, m: int, q: int, r: int)
    requires m > 0 && 0 <= r < m && a == q * m + r
    ensures a % m == r && a / m == q
  {
    var d := a / m - q;
    assert d * m == r - a % m;
    ProductBounds(d, m);
  }

  lemma ProductBounds(d: int, m: int)
    requires m > 0
    ensures d >= 1 ==> d * m >= m
    ensures d <= -1 ==> d * m <= -m
    ensures d == 0 ==> d * m == 0
  {
  }

  lemma CongruentSum(a: int, a': int, b: int, b': int, m: int)
    requires m > 0 && Congruent(a, a', m) && Congruent(b, b', m)
    ensures Congruent(a + b, a' + b', m)
  {
    var s :| Multiple(a, a', s, m);
    var t :| Multiple(b, b', t, m);
    CongruentBy(a + b, a' + b', m, s + t);
  }

  lemma CongruentProduct(a: int, a': int, b: int, b': int, m: int)
    requires m > 0 && Congruent(a, a', m) && Congruent(b, b', m)
    ensures Congruent(a * b, a' * b', m)
  {
    var s :| Multiple(a, a', s, m);
    var t :| Multiple(b, b', t, m);
    assert a * b - a' * b' == (s * b + a' * t) * m by {
      assert a * b - a' * b' == (a - a') * b + a' * (b - b');
      assert (s * m) * b + a' * (t * m) == (s * b + a' * t) * m;
    }
    CongruentBy(a * b, a' * b', m, s * b + a' * t);
  }

  lemma CongruentRefl(a: int, m: int)
    requires m > 0
    ensures Congruent(a, a, m)
  {
    CongruentBy(a, a, m, 0);
  }

  lemma CongruentMod(a: int, m: int)
    requires m > 0
    ensures Congruent(a % m, a, m)
  {
    CongruentBy(a % m, a, m, -(a / m));
  }

  lemma CongruentTrans(a: int, b: int, c: int, m: int)
    requires m > 0 && Congruent(a, b, m) && Congruent(b, c, m)
    ensures Congruent(a, c, m)
  {
    var s :| Multiple(a, b, s, m);
    var t :| Multiple(b, c, t, m);
    CongruentBy(a, c, m, s + t);
  }

  lemma CongruentSym(a: int, b: int, m: int)
    requires m > 0 && Congruent(a, b, m)
    ensures Congruent(b, a, m)
  {
    var s :| Multiple(a, b, s, m);
    CongruentBy(b, a, m, -s);
  }

  /** A congruence carries over to any divisor of the modulus. */
  lemma CongruentDivisor(a: int, b: int, m: int, r: int, s: int)
    requires m > 0 && r > 0 && m == r * s && Congruent(a, b, m)
    ensures Congruent(a, b, r)
  {
    var t :| Multiple(a, b, t, m);
    assert t * (r * s) == (t * s) * r;
    CongruentBy(a, b, r, t * s);
  }

  // ----- primes and inverses -----

  ghost predicate Prime(p: int) {
    p >= 2 && forall r: int, s: int {:trigger Factors(p, r, s)} :: Factors(p, r, s) ==> r == 1 || s == 1
  }

  ghost predicate Factors(p: int, r: int, s: int) {
    r >= 1 && s >= 1 && p == r * s
  }

  /** Bezout's identity for a prime, by Euclid's algorithm: a * x == 1 + p * t. */
  lemma {:induction false} Inverse(a: int, p: int) returns (x: int, t: int)
    requires Prime(p) && 0 < a < p
    ensures a * x == 1 + p * t
    decreases a
  {
    if a == 1 {
      return 1, 0;
    }
    var k, r := p / a, p % a;
    assert p == k * a + r;
    ProductBounds(k, a);
    assert Factors(p, k, a) ==> k == 1 || a == 1;
    var y, t' := Inverse(r, p);
    assert a * (-k * y) == 1 + p * (t' - y) by {
      assert (p - k * a) * y == 1 + p * t';
      assert (p - k * a) * y == p * y - k * a * y;
      assert a * (-k * y) == -(k * a * y);
    }
    return -k * y, t' - y;
  }

  lemma Invertible(a: int, p: int) returns (x: int)
    requires Prime(p) && a % p != 0
    ensures Congruent(a * x, 1, p)
  {
    var t;
    x, t := Inverse(a % p, p);
    CongruentBy((a % p) * x, 1, p, t) by { assert p * t == t * p; }
    CongruentMod(a, p);
    CongruentSym(a % p, a, p);
    CongruentRefl(x, p);
    CongruentProduct(a, a % p, x, x, p);
    CongruentTrans(a * x, (a % p) * x, 1, p);
  }

  lemma CancelFactor(a: int, b: int, p: int)
    requires Prime(p) && a % p != 0 && (a * b) % p == 0
    ensures b % p == 0
  {
    var x := Invertible(a, p);
    CongruentIffMod(a * b, 0, p);
    CongruentRefl(x, p);
    CongruentRefl(b, p);
    CongruentProduct(a * b, 0, x, x, p);
    CongruentProduct(a * x, 1, b, b, p);
    assert (a * b) * x == (a * x) * b;
    CongruentSym((a * x) * b, b, p);
    CongruentTrans(b, (a * b) * x, 0, p);
    CongruentIffMod(b, 0, p);
  }

  lemma ZeroFactor(a: int, b: int, p: int)
    requires p > 0 && a % p == 0
    ensures (a * b) % p == 0
  {
    CongruentIffMod(a, 0, p);
    CongruentRefl(b, p);
    CongruentProduct(a, 0, b, b, p);
    CongruentIffMod(a * b, 0, p);
  }

  /** Euclid's lemma: residues modulo a prime have no zero divisors. */
  lemma NoZeroDivisors(a: int, b: int, p: int)
    requires Prime(p)
    ensures (a * b) % p == 0 <==> a % p == 0 || b % p == 0
  {
    if a % p == 0 {
      ZeroFactor(a, b, p);
    } else if b % p == 0 {
      ZeroFactor(b, a, p);
      assert a * b == b * a;
    } else if (a * b) % p == 0 {
      CancelFactor(a, b, p);
    }
  }

  // ----- powers -----

  function Pow(b: int, e: nat): int {
    if e == 0 then 1 else b * Pow(b, e - 1)
  }

  lemma {:induction false} PowAdd(b: int, d: nat, e: nat)
    ensures Pow(b, d + e) == Pow(b, d) * Pow(b, e)
  {
    if d > 0 {
      PowAdd(b, d - 1, e);
      var x, y := Pow(b, d - 1), Pow(b, e);
      assert b * (x * y) == (b * x) * y;
    }
  }

  lemma {:induction false} PowPow(b: int, d: nat, e: nat)
    ensures Pow(Pow(b, d), e) == Pow(b, d * e)
    decreases e
  {
    if e == 0 {
      assert d * e == 0;
    } else {
      PowPow(b, d, e - 1);
      assert d * e == d + d * (e - 1);
      PowAdd(b, d, d * (e - 1));
    }
  }

  lemma {:induction false} CongruentPow(b: int, b': int, e: nat, m: int)
    requires m > 0 && Congruent(b, b', m)
    ensures Congruent(Pow(b, e), Pow(b', e), m)
  {
    if e == 0 {
      CongruentRefl(1, m);
    } else {
      CongruentPow(b, b', e - 1, m);
      CongruentProduct(b, b', Pow(b, e - 1), Pow(b', e - 1), m);
    }
  }

  lemma {:induction false} PowOne(e: nat)
    ensures Pow(1, e) == 1
  {
    if e > 0 {
      PowOne(e - 1);
    }
  }

  lemma ShiftBezout(i: int, x: int, t: int, q: int, shift: int)
    requires i * x - 1 == t * q
    ensures i * (x + shift * q) == 1 + q * (t + shift * i)
  {
    assert i * (shift * q) == q * (shift * i);
  }

  lemma NonNegativeShift(x: int, q: int) returns (shift: nat)
    requires q >= 1
    ensures x + shift * q >= 0
  {
    shift := if x < 0 then -x else 0;
    assert shift * q >= shift;
  }

  lemma NonNegativeCofactor(i: nat, x: nat, q: int, t: int)
    requires q >= 2 && i * x == 1 + q * t
    ensures t >= 0
  {
    ProductBounds(t, q);
  }

  lemma PositiveInverse(i: nat, q: int) returns (x: nat, t: nat)
    requires Prime(q) && i % q != 0
    ensures i * x == 1 + q * t
  {
    var x0 := Invertible(i, q);
    var t0 :| Multiple(i * x0, 1, t0, q);
    var shift := NonNegativeShift(x0, q);
    ShiftBezout(i, x0, t0, q, shift);
    NonNegativeCofactor(i, x0 + shift * q, q, t0 + shift * i);
    return x0 + shift * q, t0 + shift * i;
  }

  lemma PowerOfOne(c: int, e: nat, r: int)
    requires r > 0 && Congruent(c, 1, r)
    ensures Congruent(Pow(c, e), 1, r)
  {
    CongruentPow(c, 1, e, r);
    PowOne(e);
  }

  /** If q is prime and b^q is 1 modulo r, then b^i is 1 for an i that q does not divide
      only if b itself is 1. */
  lemma OrderIsPrime(b: int, q: int, r: int, i: nat)
    requires Prime(q) && r > 0
    requires Congruent(Pow(b, q), 1, r) && Congruent(Pow(b, i), 1, r) && i % q != 0
    ensures Congruent(b, 1, r)
  {
    var x, t := PositiveInverse(i, q);
    PowerOfOne(Pow(b, i), x, r);
    PowPow(b, i, x);
    PowerOfOne(Pow(b, q), t, r);
    PowPow(b, q, t);
    assert Pow(b, i * x) == b * Pow(b, q * t);
    CongruentRefl(b, r);
    CongruentProduct(b, b, Pow(b, q * t), 1, r);
    CongruentSym(b * Pow(b, q * t), b * 1, r);
    CongruentTrans(b, Pow(b, i * x), 1, r);
  }

  // ----- counting residues -----

  function Range(n: nat): (r: set<int>)
    ensures forall k :: k in r <==> 0 <= k < n
  {
    if n == 0 then {} else Range(n - 1) + {n - 1}
  }

  lemma {:induction false} RangeSize(n: nat)
    ensures |Range(n)| == n
  {
    if n > 0 {
      RangeSize(n - 1);
    }
  }

  lemma SubsetSize(a: set<int>, b: set<int>)
    requires a <= b
    ensures |a| <= |b|
  {
    assert b == a + (b - a);
  }

  ghost function Residues(b: int, r: int, n: nat): set<int>
    requires r > 0
  {
    if n == 0 then {} else Residues(b, r, n - 1) + {Pow(b, n - 1) % r}
  }

  /** No power of b strictly between the zeroth and the n-th is 1 modulo r. */
  ghost predicate NoEarlyOne(b: int, n: nat, r: int)
    requires r > 0
  {
    forall i: nat :: 0 < i < n ==> !Congruent(Pow(b, i), 1, r)
  }

  lemma CancelPower(b: int, y: int, i: nat, j: nat, r: int)
    requires r > 0 && i <= j && Congruent(b * y, 1, r) && Congruent(Pow(b, i), Pow(b, j), r)
    ensures Congruent(Pow(b, j - i), 1, r)
    decreases i
  {
    if i == 0 {
      CongruentSym(1, Pow(b, j), r);
    } else {
      CancelOnce(b, y, Pow(b, i - 1), Pow(b, j - 1), r);
      CancelPower(b, y, i - 1, j - 1, r);
    }
  }

  lemma CancelOnce(b: int, y: int, c: int, d: int, r: int)
    requires r > 0 && Congruent(b * y, 1, r) && Congruent(b * c, b * d, r)
    ensures Congruent(c, d, r)
  {
    var s :| Multiple(b * y, 1, s, r);
    var t :| Multiple(b * c, b * d, t, r);
    assert c - d == (y * t - s * (c - d)) * r by {
      assert y * (b * c - b * d) == (b * y) * (c - d);
      assert (s * r + 1) * (c - d) == s * (c - d) * r + (c - d);
      assert y * (t * r) == y * t * r;
    }
    CongruentBy(c, d, r, y * t - s * (c - d));
  }

  lemma {:induction false} ResidueOf(b: int, r: int, n: nat, v: int) returns (k: nat)
    requires r > 0 && v in Residues(b, r, n)
    ensures k < n && v == Pow(b, k) % r
  {
    if v == Pow(b, n - 1) % r {
      k := n - 1;
    } else {
      k := ResidueOf(b, r, n - 1, v);
    }
  }

  lemma NewResidue(b: int, y: int, r: int, n: nat)
    requires r > 0 && Congruent(b * y, 1, r) && NoEarlyOne(b, n, r) && n > 0
    ensures Pow(b, n - 1) % r !in Residues(b, r, n - 1)
  {
    if Pow(b, n - 1) % r in Residues(b, r, n - 1) {
      var k := ResidueOf(b, r, n - 1, Pow(b, n - 1) % r);
      CongruentIffMod(Pow(b, k), Pow(b, n - 1), r);
      CancelPower(b, y, k, n - 1, r);
    }
  }

  lemma {:induction false} ResidueCount(b: int, y: int, r: int, n: nat)
    requires r > 0 && Congruent(b * y, 1, r) && NoEarlyOne(b, n, r)
    ensures |Residues(b, r, n)| == n && Residues(b, r, n) <= Range(r)
  {
    if n > 0 {
      ResidueCount(b, y, r, n - 1);
      NewResidue(b, y, r, n);
    }
  }

  // ----- primality by an element of large order -----

  /** A prime divisor q of the order bound, its cofactor, the residue of b^cofactor, and the
      inverse that shows that residue minus one to be a unit. */
  datatype Witness = Witness(q: nat, cofactor: nat, residue: nat, inverse: nat)

  ghost predicate Checks(w: Witness, b: int, order: nat, m: int)
    requires m > 0
  {
    && Prime(w.q) && order == w.q * w.cofactor
    && Congruent(w.residue, Pow(b, w.cofactor), m)
    && (w.residue * w.inverse - w.inverse) % m == 1
  }

  /** Some witness prime fails to divide i. */
  ghost predicate Separated(ws: seq<Witness>, i: nat) {
    exists k :: 0 <= k < |ws| && ws[k].q > 0 && i % ws[k].q != 0
  }

  lemma UnitIsNotOne(c: int, x: int, m: int, r: int, s: int)
    requires m == r * s && r > 1 && m > 0
    requires (c * x - x) % m == 1
    ensures !Congruent(c, 1, r)
  {
    if Congruent(c, 1, r) {
      var t :| Multiple(c, 1, t, r);
      var u := (c * x - x) / m;
      assert r * (t * x - u * s) == 1 by {
        assert c * x - x == u * m + 1;
        assert c * x - x == (c - 1) * x;
        assert (t * r) * x == r * (t * x);
        assert u * (r * s) == r * (u * s);
      }
      ProductBounds(t * x - u * s, r);
    }
  }

  lemma NoEarlyPower(m: int, b: int, order: nat, w: Witness, r: int, s: int, i: nat)
    requires m > 0 && Congruent(Pow(b, order), 1, m) && Checks(w, b, order, m)
    requires m == r * s && r > 1 && i % w.q != 0
    ensures !Congruent(Pow(b, i), 1, r)
  {
    var c := Pow(b, w.cofactor);
    CongruentDivisor(w.residue, c, m, r, s);
    UnitIsNotOne(w.residue, w.inverse, m, r, s);
    if Congruent(Pow(b, i), 1, r) {
      CongruentDivisor(Pow(b, order), 1, m, r, s);
      PowPow(b, w.cofactor, w.q);
      assert w.cofactor * w.q == order;
      PowerOfOne(Pow(b, i), w.cofactor, r);
      PowPow(b, i, w.cofactor);
      PowPow(b, w.cofactor, i);
      assert i * w.cofactor == w.cofactor * i;
      OrderIsPrime(c, w.q, r, i);
      CongruentTrans(w.residue, c, 1, r);
    }
  }

  /** A divisor of m above 1 is at least as large as the order of b. */
  lemma DivisorAtLeastOrder(m: int, b: int, order: nat, ws: seq<Witness>, r: int, s: int)
    requires m > 0 && order > 0 && Congruent(Pow(b, order), 1, m)
    requires forall k :: 0 <= k < |ws| ==> Checks(ws[k], b, order, m)
    requires forall i: nat :: 0 < i < order ==> Separated(ws, i)
    requires m == r * s && r > 1
    ensures r >= order
  {
    forall i: nat | 0 < i < order ensures !Congruent(Pow(b, i), 1, r) {
      assert Separated(ws, i);
      var k :| 0 <= k < |ws| && ws[k].q > 0 && i % ws[k].q != 0;
      NoEarlyPower(m, b, order, ws[k], r, s, i);
    }
    CongruentDivisor(Pow(b, order), 1, m, r, s);
    ResidueCount(b, Pow(b, order - 1), r, order);
    RangeSize(r);
    SubsetSize(Residues(b, r, order), Range(r));
  }

  lemma ProductAtLeast(r: int, s: int, n: int)
    requires r >= n >= 0 && s >= n
    ensures r * s >= n * n
  {
  }

  lemma PrimeByOrder(m: int, b: int, order: nat, ws: seq<Witness>)
    requires m >= 2 && order > 0 && order * order > m && Congruent(Pow(b, order), 1, m)
    requires forall k :: 0 <= k < |ws| ==> Checks(ws[k], b, order, m)
    requires forall i: nat :: 0 < i < order ==> Separated(ws, i)
    ensures Prime(m)
  {
    forall r: int, s: int | Factors(m, r, s) ensures r == 1 || s == 1 {
      if r > 1 && s > 1 {
        DivisorAtLeastOrder(m, b, order, ws, r, s);
        DivisorAtLeastOrder(m, b, order, ws, s, r) by { assert m == s * r; }
        ProductAtLeast(r, s, order);
      }
    }
  }

  /** Divisibility by two coprime numbers, one of them prime, is divisibility by their product. */
  lemma ProductDivides(i: int, q: int, s: int)
    requires q > 0 && Prime(s) && q % s != 0 && i % q == 0 && i % s == 0
    ensures i % (q * s) == 0
  {
    var k := i / q;
    assert i == q * k;
    CancelFactor(q, k, s);
    var k' := k / s;
    assert q * (s * k') == k' * (q * s);
    ModUnique(i, q * s, k', 0);
  }
}
