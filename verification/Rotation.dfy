/** The rotation of audit windows over the 128-bit space of file identifiers.

    The number of peers is a parameter n; the program is built with n = 3.
  */
module Rotation {
  import opened Words
  import opened Field

  datatype Window = Window(iteration: nat, start: nat, end: nat)

  predicate Supported(n: int) {
    1 <= n < U128_MAX
  }

  /** `u128::MAX / NUM_PEERS` */
  function Width(n: nat): (q: nat)
    requires Supported(n)
    ensures q >= 1 && n * q <= U128_MAX < n * q + n
  {
    var q := U128_MAX / n;
    assert U128_MAX == n * q + U128_MAX % n;
    q
  }

  function Initial(n: nat): Window
    requires Supported(n)
  {
    Window(1, 0, Width(n))
  }

  function Advance(n: nat, w: Window): Window
    requires Supported(n)
  {
    var iteration := w.iteration + 1;
    if iteration == n + 1 then Window(0, 0, Width(n))
    else if iteration == n then Window(iteration, w.start + Width(n), U128_MAX)
    else Window(iteration, w.start + Width(n), w.start + Width(n) + Width(n))
  }

  /** The window of round t. */
  function At(n: nat, t: nat): Window
    requires Supported(n)
  {
    if t == 0 then Initial(n) else Advance(n, At(n, t - 1))
  }

  predicate Covers(w: Window, id: nat) {
    w.start <= id <= w.end
  }

  // ----- closed form -----

  /** The window that starts at the k-th cut; the last one reaches the end of the space. */
  function Cell(n: nat, iteration: nat, k: nat): Window
    requires Supported(n)
  {
    Window(iteration, k * Width(n), if iteration == n then U128_MAX else (k + 1) * Width(n))
  }

  /** The first cycle has n rounds and starts at iteration 1; every later cycle has n + 1 rounds
      and starts at iteration 0. */
  lemma {:induction false} ClosedForm(n: nat, t: nat)
    requires Supported(n)
    ensures t < n ==> At(n, t) == Cell(n, t + 1, t)
    ensures t >= n ==> At(n, t) == Cell(n, (t - n) % (n + 1), (t - n) % (n + 1))
  {
    if t == 0 {
      FirstCell(n);
    } else {
      ClosedForm(n, t - 1);
      if t < n {
        CellStep(n, t, t - 1);
      } else if t == n {
        ModUnique(0, n + 1, 0, 0);
        assert Cell(n, 0, 0) == Window(0, 0, Width(n));
      } else {
        LaterStep(n, t);
      }
    }
  }

  lemma FirstCell(n: nat)
    requires Supported(n)
    ensures Initial(n) == Cell(n, 1, 0)
  {
    assert n == 1 ==> U128_MAX / n == U128_MAX;
  }

  lemma CellStep(n: nat, iteration: nat, k: nat)
    requires Supported(n) && iteration < n
    ensures Advance(n, Cell(n, iteration, k)) == Cell(n, iteration + 1, k + 1)
  {
    var q := Width(n);
    assert (k + 1) * q == k * q + q;
    assert (k + 2) * q == (k + 1) * q + q;
  }

  lemma CellParts(n: nat)
    requires Supported(n)
    ensures Cell(n, 0, 0) == Window(0, 0, Width(n)) && Cell(n, n, n).iteration == n
  {
  }

  lemma LaterStep(n: nat, t: nat)
    requires Supported(n) && t > n
    requires At(n, t - 1) == Cell(n, (t - 1 - n) % (n + 1), (t - 1 - n) % (n + 1))
    ensures At(n, t) == Cell(n, (t - n) % (n + 1), (t - n) % (n + 1))
  {
    hide Width, Cell;
    NextResidue(t - 1 - n, n + 1);
    if (t - 1 - n) % (n + 1) == n {
      CellParts(n);
    } else {
      CellStep(n, (t - 1 - n) % (n + 1), (t - 1 - n) % (n + 1));
    }
  }

  lemma NextResidue(x: nat, m: nat)
    requires m > 0
    ensures (x + 1) % m == if x % m == m - 1 then 0 else x % m + 1
  {
    var a, s := x / m, x % m;
    assert x == a * m + s;
    if s == m - 1 {
      ModUnique(x + 1, m, a + 1, 0) by { assert (a + 1) * m == a * m + m; }
    } else {
      ModUnique(x + 1, m, a, s + 1);
    }
  }

  lemma MultipleOrder(j: nat, k: nat, q: nat)
    requires j <= k
    ensures 0 <= j * q <= k * q
  {
    assert k * q == j * q + (k - j) * q;
    assert (k - j) * q >= 0;
  }

  lemma CutsInSpace(n: nat, k: nat)
    requires Supported(n) && k <= n
    ensures 0 <= k * Width(n) <= n * Width(n) <= U128_MAX
    ensures k < n ==> k * Width(n) <= (k + 1) * Width(n) <= U128_MAX
  {
    hide Width;
    MultipleOrder(k, n, Width(n));
    if k < n {
      MultipleOrder(k + 1, n, Width(n));
      MultipleOrder(k, k + 1, Width(n));
    }
  }

  /** No reachable window is inverted or leaves the 128-bit space. */
  lemma WindowsInSpace(n: nat, t: nat)
    requires Supported(n)
    ensures At(n, t).iteration <= n
    ensures At(n, t).start <= At(n, t).end <= U128_MAX
    ensures At(n, t).iteration < n ==> At(n, t).end == At(n, t).start + Width(n)
    ensures At(n, t).iteration < n - 1 ==> At(n, t).end + Width(n) <= U128_MAX
  {
    hide Width;
    ClosedForm(n, t);
    var k := if t < n then t else (t - n) % (n + 1);
    assert k <= n;
    CutsInSpace(n, k);
    assert (k + 1) * Width(n) == k * Width(n) + Width(n);
    if k + 1 < n {
      CutsInSpace(n, k + 1);
      assert (k + 2) * Width(n) == (k + 1) * Width(n) + Width(n);
    }
  }

  /** The window of every round, in numbers: with q the n-th part of the space, rounds 0 to n - 1
      start at multiples of q and the last of them runs to the end; from then on every n + 1 rounds
      repeat the same with one more round for the remainder. */
  lemma WindowExactly(n: nat, t: nat)
    requires Supported(n)
    ensures var q, w := U128_MAX / n, At(n, t);
      if t < n then w.start == t * q && w.end == if t == n - 1 then U128_MAX else (t + 1) * q
      else
        var s := (t - n) % (n + 1);
        w.start == s * q && w.end == if s == n then U128_MAX else (s + 1) * q
  {
    ClosedForm(n, t);
    hide At;
    assert t >= n ==> (t - n) % (n + 1) <= n;
  }

  /** Every window but the last of a cycle is an n-th part of the space. */
  lemma WindowWidth(n: nat, t: nat)
    requires Supported(n) && At(n, t).iteration < n
    ensures n * (At(n, t).end - At(n, t).start) <= U128_MAX < n * (At(n, t).end - At(n, t).start) + n
  {
    WindowsInSpace(n, t);
    hide At, Width;
    assert At(n, t).end - At(n, t).start == Width(n);
  }

  // ----- coverage -----

  /** Exactly which rounds audit an identifier. */
  lemma CoveredExactly(n: nat, t: nat, id: nat)
    requires Supported(n) && id <= U128_MAX
    ensures var q := U128_MAX / n;
      var s := if t < n then t else (t - n) % (n + 1);
      Covers(At(n, t), id)
      <==> s * q <= id && (id <= (s + 1) * q || s == n || (t < n && s == n - 1))
  {
    WindowExactly(n, t);
    hide At;
  }

  /** The cut at or below an identifier. */
  function CutBelow(n: nat, id: nat): (k: nat)
    requires Supported(n)
    ensures k <= n
  {
    var k := id / Width(n);
    if k < n then k else n
  }

  lemma CutBelowBounds(n: nat, id: nat)
    requires Supported(n) && id <= U128_MAX
    ensures CutBelow(n, id) * Width(n) <= id
    ensures CutBelow(n, id) < n ==> id < (CutBelow(n, id) + 1) * Width(n)
  {
    var q, k := Width(n), id / Width(n);
    assert id == k * q + id % q;
    assert (k + 1) * q == k * q + q;
    if k >= n {
      assert k * q == n * q + (k - n) * q;
    }
  }

  lemma LaterCover(n: nat, r: nat, id: nat)
    requires Supported(n) && id <= U128_MAX && r >= n && (r - n) % (n + 1) == CutBelow(n, id)
    ensures Covers(At(n, r), id)
  {
    ClosedForm(n, r);
    CutBelowBounds(n, id);
  }

  lemma FirstCover(n: nat, r: nat, id: nat)
    requires Supported(n) && id <= U128_MAX && r < n
    requires r == CutBelow(n, id) || (r == n - 1 && CutBelow(n, id) == n)
    ensures Covers(At(n, r), id)
  {
    ClosedForm(n, r);
    CutBelowBounds(n, id);
    var q := Width(n);
    assert n * q == (n - 1) * q + q;
  }

  /** Every identifier is audited at least once in any n + 1 consecutive rounds, including those
      that straddle the shorter first cycle: in round r. */
  lemma EveryIdentifierIsCovered(n: nat, t: nat, id: nat) returns (r: nat)
    requires Supported(n) && id <= U128_MAX
    ensures t <= r <= t + n && Covers(At(n, r), id)
  {
    hide Width, At, CutBelow, Covers;
    var k := CutBelow(n, id);
    if t >= n {
      var a, s := (t - n) / (n + 1), (t - n) % (n + 1);
      assert t - n == a * (n + 1) + s;
      if k >= s {
        r := t + (k - s);
        ModUnique(r - n, n + 1, a, k);
      } else {
        r := t + (n + 1 - s + k);
        ModUnique(r - n, n + 1, a + 1, k) by { assert (a + 1) * (n + 1) == a * (n + 1) + n + 1; }
      }
      LaterCover(n, r, id);
    } else if k < t {
      r := n + k;
      ModUnique(r - n, n + 1, 0, k);
      LaterCover(n, r, id);
    } else {
      r := if k < n then k else n - 1;
      FirstCover(n, r, id);
    }
  }

  /** n rounds are not enough: identifier 0 is skipped by the n rounds n + 1 .. 2n. */
  lemma CoverageIsTight(n: nat, r: nat)
    requires Supported(n) && n + 1 <= r <= 2 * n
    ensures !Covers(At(n, r), 0)
  {
    ClosedForm(n, r);
    ModUnique(r - n, n + 1, 0, r - n);
    assert (r - n) * Width(n) >= Width(n);
  }

  // ----- the program -----

  class Rotor {
    const n: nat
    var iteration: U128
    var starting: U128
    var ending: U128

    ghost function Current(): Window
      reads this
    {
      Window(iteration, starting, ending)
    }

    constructor (n: nat)
      requires Supported(n)
      ensures this.n == n && Current() == At(n, 0)
    {
      this.n := n;
      iteration, starting, ending := 1, 0, U128_MAX / n;
      new;
      WindowsInSpace(n, 0);
    }

    /** `next_iteration`, in round t; no addition overflows. */
    method NextIteration(ghost t: nat)
      requires Supported(n) && Current() == At(n, t)
      modifies this
      ensures Current() == At(n, t + 1)
    {
      WindowsInSpace(n, t);
      WindowsInSpace(n, t + 1);
      iteration := iteration + 1;
      if iteration == n + 1 {
        iteration := 0;
        starting := 0;
        ending := starting + U128_MAX / n;
      } else if iteration == n {
        starting := starting + U128_MAX / n;
        ending := U128_MAX;
      } else {
        starting := starting + U128_MAX / n;
        ending := starting + U128_MAX / n;
      }
    }
  }
}
