/** Vectors, matrices and the bilinear pairing behind the audit. */
module Linear {
  import opened Field

  /** A matrix is a sequence of slices, all of length n. */
  predicate Shape(m: seq<seq<int>>, n: nat) {
    forall i :: 0 <= i < |m| ==> |m[i]| == n
  }

  function Dot(a: seq<int>, b: seq<int>): int
    requires |a| == |b|
  {
    if a == [] then 0
    else Dot(a[..|a| - 1], b[..|b| - 1]) + a[|a| - 1] * b[|b| - 1]
  }

  function Zeros(n: nat): (r: seq<int>)
    ensures |r| == n
    ensures forall i :: 0 <= i < n ==> r[i] == 0
  {
    seq(n, _ => 0)
  }

  /** a + s * b */
  function AddScaled(a: seq<int>, s: int, b: seq<int>): (r: seq<int>)
    requires |a| == |b|
    ensures |r| == |a|
  {
    seq(|a|, i requires 0 <= i < |a| => a[i] + s * b[i])
  }

  function Minus(a: seq<int>, b: seq<int>): (r: seq<int>)
    requires |a| == |b|
    ensures |r| == |a|
  {
    seq(|a|, i requires 0 <= i < |a| => a[i] - b[i])
  }

  /** m * c: the pairing of every slice with the challenge. */
  function Respond(m: seq<seq<int>>, c: seq<int>): (r: seq<int>)
    requires Shape(m, |c|)
    ensures |r| == |m|
  {
    seq(|m|, i requires 0 <= i < |m| => Dot(m[i], c))
  }

  /** u^T * m: the combination of the slices with weights u. */
  function Project(u: seq<int>, m: seq<seq<int>>, n: nat): (r: seq<int>)
    requires |u| == |m| && Shape(m, n)
    ensures |r| == n
  {
    if m == [] then Zeros(n)
    else AddScaled(Project(u[..|u| - 1], m[..|m| - 1], n), u[|u| - 1], m[|m| - 1])
  }

  function MatrixMinus(a: seq<seq<int>>, b: seq<seq<int>>, n: nat): (r: seq<seq<int>>)
    requires |a| == |b| && Shape(a, n) && Shape(b, n)
    ensures |r| == |a| && Shape(r, n)
  {
    seq(|a|, i requires 0 <= i < |a| => Minus(a[i], b[i]))
  }

  function Reduced(v: seq<int>): (r: seq<nat>)
    ensures |r| == |v|
    ensures forall i :: 0 <= i < |r| ==> r[i] == v[i] % P57
  {
    seq(|v|, i requires 0 <= i < |v| => v[i] % P57)
  }

  // ----- bilinearity -----

  lemma {:induction false} DotAddScaled(c: seq<int>, a: seq<int>, s: int, b: seq<int>)
    requires |c| == |a| == |b|
    ensures Dot(c, AddScaled(a, s, b)) == Dot(c, a) + s * Dot(c, b)
  {
    if c != [] {
      var n := |c| - 1;
      DotAddScaled(c[..n], a[..n], s, b[..n]);
      assert AddScaled(a, s, b)[..n] == AddScaled(a[..n], s, b[..n]);
      var x, y, z := c[n], a[n], b[n];
      assert x * (y + s * z) == x * y + s * (x * z);
      assert s * (Dot(c[..n], b[..n]) + x * z) == s * Dot(c[..n], b[..n]) + s * (x * z);
    }
  }

  lemma AddScaledAt(a: seq<int>, s: int, b: seq<int>, i: nat)
    requires |a| == |b| && i < |a|
    ensures AddScaled(a, s, b)[i] == a[i] + b[i] * s
  {
  }

  lemma DotNothing(a: seq<int>, b: seq<int>)
    requires |a| == |b| == 0
    ensures Dot(a, b) == 0
  {
  }

  lemma {:induction false} DotZeros(c: seq<int>)
    ensures Dot(c, Zeros(|c|)) == 0
  {
    if c != [] {
      DotZeros(c[..|c| - 1]);
      assert Zeros(|c|)[..|c| - 1] == Zeros(|c| - 1);
    }
  }

  lemma {:induction false} DotCommutes(a: seq<int>, b: seq<int>)
    requires |a| == |b|
    ensures Dot(a, b) == Dot(b, a)
  {
    if a != [] {
      DotCommutes(a[..|a| - 1], b[..|b| - 1]);
    }
  }

  /** Exchanging the double sum: (m * c) . u == c . (u^T * m). */
  lemma {:induction false} PairingExchange(m: seq<seq<int>>, c: seq<int>, u: seq<int>)
    requires |u| == |m| && Shape(m, |c|)
    ensures Dot(Respond(m, c), u) == Dot(c, Project(u, m, |c|))
  {
    if m == [] {
      DotZeros(c);
    } else {
      var k, r := |m| - 1, Respond(m, c);
      PairingExchange(m[..k], c, u[..k]);
      assert r[..k] == Respond(m[..k], c);
      assert Dot(r, u) == Dot(r[..k], u[..k]) + r[k] * u[k];
      assert Project(u, m, |c|) == AddScaled(Project(u[..k], m[..k], |c|), u[k], m[k]);
      hide Dot, Project, AddScaled;
      DotAddScaled(c, Project(u[..k], m[..k], |c|), u[k], m[k]);
      DotCommutes(m[k], c);
      assert r[k] == Dot(c, m[k]);
    }
  }

  lemma DotMinus(a: seq<int>, b: seq<int>, c: seq<int>)
    requires |a| == |b| == |c|
    ensures Dot(Minus(a, b), c) == Dot(a, c) - Dot(b, c)
  {
    assert Minus(a, b) == AddScaled(a, -1, b);
    DotAddScaled(c, a, -1, b);
    DotCommutes(Minus(a, b), c);
    DotCommutes(a, c);
    DotCommutes(b, c);
  }

  /** The pairing is additive in the matrix. */
  lemma RespondMinus(a: seq<seq<int>>, b: seq<seq<int>>, c: seq<int>)
    requires |a| == |b| && Shape(a, |c|) && Shape(b, |c|)
    ensures Respond(MatrixMinus(a, b, |c|), c) == Minus(Respond(a, c), Respond(b, c))
  {
    forall i | 0 <= i < |a|
      ensures Respond(MatrixMinus(a, b, |c|), c)[i] == Minus(Respond(a, c), Respond(b, c))[i]
    {
      DotMinus(a[i], b[i], c);
    }
  }

  lemma PairingMinus(a: seq<seq<int>>, b: seq<seq<int>>, c: seq<int>, u: seq<int>)
    requires |a| == |b| == |u| && Shape(a, |c|) && Shape(b, |c|)
    ensures Dot(Respond(MatrixMinus(a, b, |c|), c), u) == Dot(Respond(a, c), u) - Dot(Respond(b, c), u)
  {
    RespondMinus(a, b, c);
    DotMinus(Respond(a, c), Respond(b, c), u);
  }

  /** A vector with a single nonzero entry pairs to that one product. */
  lemma {:induction false} DotSingle(a: seq<int>, b: seq<int>, k: nat)
    requires |a| == |b| && k < |a|
    requires forall i :: 0 <= i < |a| && i != k ==> a[i] * b[i] == 0
    ensures Dot(a, b) == a[k] * b[k]
  {
    var n := |a| - 1;
    if k < n {
      DotSingle(a[..n], b[..n], k);
    } else {
      DotVanishes(a[..n], b[..n]);
    }
  }

  lemma {:induction false} DotVanishes(a: seq<int>, b: seq<int>)
    requires |a| == |b|
    requires forall i :: 0 <= i < |a| ==> a[i] * b[i] == 0
    ensures Dot(a, b) == 0
  {
    if a != [] {
      DotVanishes(a[..|a| - 1], b[..|b| - 1]);
    }
  }

  /** Reducing one side entry by entry does not change the pairing modulo P57. */
  lemma {:induction false} DotReduced(a: seq<int>, b: seq<int>)
    requires |a| == |b|
    ensures Congruent(Dot(Reduced(a), b), Dot(a, b), P57)
  {
    if a == [] {
      CongruentRefl(0, P57);
    } else {
      var n := |a| - 1;
      DotReduced(a[..n], b[..n]);
      assert Reduced(a)[..n] == Reduced(a[..n]);
      CongruentMod(a[n], P57);
      CongruentRefl(b[n], P57);
      CongruentProduct(a[n] % P57, a[n], b[n], b[n], P57);
      CongruentSum(Dot(Reduced(a[..n]), b[..n]), Dot(a[..n], b[..n]), a[n] % P57 * b[n], a[n] * b[n], P57);
    }
  }
}
