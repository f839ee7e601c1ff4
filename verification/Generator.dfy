/** The TinyMT-style generator behind the secret and challenge vectors. */
module Generator {
  import opened Words
  import opened Field

  datatype State = State(s0: bv64, s1: bv64)

  const TINYMT_MASK: bv64 := 0x7fff_ffff_ffff_ffff
  const DRAW_MASK: bv64 := (1 << 57) - 1
  const MULTIPLIER: bv64 := 6364136223846793005

  // ----- specification -----

  /** `-((x & 1) as i64)`, read as a 64-bit mask. */
  function Spread(x: bv64): bv64 {
    if x & 1 == 1 then 0xffff_ffff_ffff_ffff else 0
  }

  /** The low 63 bits. */
  function Low(x: bv64): bv64 {
    x & TINYMT_MASK
  }

  function Xor(a: bv64, b: bv64): bv64 {
    a ^ b
  }

  /** The shifts of the four stages of a transition. */
  datatype Shift = Left12 | Right32 | Left32 | Left11

  function Shifted(k: Shift, x: bv64): bv64 {
    match k
    case Left12 => x << 12
    case Right32 => x >> 32
    case Left32 => x << 32
    case Left11 => x << 11
  }

  /** `x ^= x << k` and the like. */
  function Stage(k: Shift, x: bv64): bv64 {
    Xor(x, Shifted(k, x))
  }

  function Scramble(x: bv64): bv64 {
    Stage(Left11, Stage(Left32, Stage(Right32, Stage(Left12, x))))
  }

  /** `s ^= -((x & 1) as i64) & mat` */
  function Tapped(s: bv64, x: bv64, mat: bv64): bv64 {
    s ^ (Spread(x) & mat)
  }

  predicate Odd(x: bv64) {
    x & 1 == 1
  }

  /** The matrix is added exactly when x is odd. */
  lemma TappedWhenOdd(s: bv64, x: bv64, mat: bv64)
    ensures Tapped(s, x, mat) == if Odd(x) then Xor(s, mat) else s
  {
    SpreadWhenOdd(x);
    hide Odd, Spread;
    if Odd(x) {
      AllOnes(mat);
    } else {
      NoneSet(s, mat);
    }
  }

  lemma SpreadWhenOdd(x: bv64)
    ensures Spread(x) == if Odd(x) then 0xffff_ffff_ffff_ffff else 0
  {
  }

  /** A transition with any matrices: they are added exactly when the scrambled word is odd. */
  lemma NextWhenOdd(st: State, mat1: bv32, mat2: bv32)
    ensures var x := Scramble(Xor(Low(st.s0), st.s1));
      Next(st, mat1, mat2)
      == if Odd(x) then State(Xor(st.s1, mat1 as bv64), Xor(x, mat2 as bv64 << 32)) else State(st.s1, x)
  {
    hide Scramble, Tapped, Xor, Low, Odd;
    var x := Scramble(Xor(Low(st.s0), st.s1));
    TappedWhenOdd(st.s1, x, mat1 as bv64);
    TappedWhenOdd(x, x, mat2 as bv64 << 32);
  }

  lemma AllOnes(mat: bv64)
    ensures 0xffff_ffff_ffff_ffff & mat == mat
  {
  }

  lemma NoneSet(s: bv64, mat: bv64)
    ensures s ^ (0 & mat) == s
  {
  }

  function Next(st: State, mat1: bv32, mat2: bv32): State {
    var x := Scramble(Xor(Low(st.s0), st.s1));
    State(Tapped(st.s1, x, mat1 as bv64), Tapped(x, x, mat2 as bv64 << 32))
  }

  /** The 128-bit sum modulo `u64::MAX` (that is, 2^64 - 1), truncated to 64 bits. */
  function SumMod(a: bv64, b: bv64): bv64 {
    ((a as bv128 + b as bv128) % 0xffff_ffff_ffff_ffff & 0xffff_ffff_ffff_ffff) as bv64
  }

  function Temper(st: State, tmat: bv64): bv64 {
    var x := SumMod(st.s0, st.s1) ^ (st.s0 >> 8);
    Tapped(x, x, tmat)
  }

  /** The state that counts: the top bit of the first word is never read. */
  function Masked(st: State): State {
    State(Low(st.s0), st.s1)
  }

  predicate Live(st: State) {
    Masked(st) != State(0, 0)
  }

  function Certified(st: State): State {
    if Live(st) then st else State('T' as bv64, 'M' as bv64)
  }

  function Mix(own: bv64, previous: bv64, i: nat): bv64
    requires i < 8
  {
    own ^ (i as bv64 + MULTIPLIER * (previous ^ (previous >> 62)))
  }

  /** One pass of the seeding loop, at index i. */
  function Mixed(st: State, i: nat): State
    requires i < 8
  {
    if i % 2 == 1 then State(st.s0, Mix(st.s1, st.s0, i)) else State(Mix(st.s0, st.s1, i), st.s1)
  }

  function MixedUpTo(st: State, i: nat): State
    requires 1 <= i <= 8
  {
    if i == 1 then st else Mixed(MixedUpTo(st, i - 1), i - 1)
  }

  lemma MixedStep(st: State)
    ensures MixedUpTo(st, 1) == st
    ensures forall i :: 1 <= i < 8 ==> MixedUpTo(st, i + 1) == Mixed(MixedUpTo(st, i), i)
  {
    hide Mixed;
  }

  /** The state after seeding with the zero matrices that `rand_vector` uses. */
  function Seeded(seed: bv64): State {
    Certified(MixedUpTo(State(seed, 0), 8))
  }

  function Step(st: State): State {
    Next(st, 0, 0)
  }

  function Iterate(st: State, n: nat): State {
    if n == 0 then st else Step(Iterate(st, n - 1))
  }

  /** The low 57 bits of an output. */
  function Candidate(x: bv64): (v: U64) {
    (x & DRAW_MASK) as nat
  }

  function Draw(st: State): (v: U64) {
    Candidate(Temper(st, 0))
  }

  function Draws(st: State, n: nat): (r: seq<U64>)
    ensures |r| == n
  {
    if n == 0 then [] else Draws(st, n - 1) + [Draw(Iterate(st, n))]
  }

  /** The entries that rejection sampling keeps. */
  function Kept(draws: seq<U64>): (r: seq<U64>)
    ensures |r| <= |draws|
    ensures forall i :: 0 <= i < |r| ==> r[i] < P57
  {
    if draws == [] then [] else
      var init, last := Kept(draws[..|draws| - 1]), draws[|draws| - 1];
      if last < P57 then init + [last] else init
  }

  // ----- state safety -----

  lemma XorSwap(a: bv64, b: bv64, c: bv64, d: bv64)
    requires a ^ b == c ^ d
    ensures a ^ c == b ^ d
  {
  }

  lemma XorExchange(a: bv64, b: bv64, c: bv64, d: bv64)
    requires Xor(a, b) == Xor(c, d)
    ensures Xor(a, c) == Xor(b, d)
  {
    XorSwap(a, b, c, d);
  }

  lemma XorZero(x: bv64, y: bv64)
    requires Xor(x, y) == 0
    ensures x == y
  {
  }

  lemma Left12IsLinear(a: bv64, b: bv64)
    ensures Xor(Shifted(Left12, a), Shifted(Left12, b)) == Shifted(Left12, Xor(a, b))
  {
  }

  lemma Right32IsLinear(a: bv64, b: bv64)
    ensures Xor(Shifted(Right32, a), Shifted(Right32, b)) == Shifted(Right32, Xor(a, b))
  {
  }

  lemma Left32IsLinear(a: bv64, b: bv64)
    ensures Xor(Shifted(Left32, a), Shifted(Left32, b)) == Shifted(Left32, Xor(a, b))
  {
  }

  lemma Left11IsLinear(a: bv64, b: bv64)
    ensures Xor(Shifted(Left11, a), Shifted(Left11, b)) == Shifted(Left11, Xor(a, b))
  {
  }

  lemma ShiftIsLinear(k: Shift, a: bv64, b: bv64)
    ensures Xor(Shifted(k, a), Shifted(k, b)) == Shifted(k, Xor(a, b))
  {
    hide Xor, Shifted;
    match k
    case Left12 => Left12IsLinear(a, b);
    case Right32 => Right32IsLinear(a, b);
    case Left32 => Left32IsLinear(a, b);
    case Left11 => Left11IsLinear(a, b);
  }

  /** A shift has no nonzero fixed point. */
  lemma ShiftFixpoint(k: Shift, z: bv64)
    requires z == Shifted(k, z)
    ensures z == 0
  {
    match k
    case Left12 =>
      assert (z << 12) << 12 == z << 24 && (z << 24) << 24 == z << 48 && (z << 48) << 24 == 0;
    case Right32 =>
      assert (z >> 32) >> 32 == 0;
    case Left32 =>
      assert (z << 32) << 32 == 0;
    case Left11 =>
      assert (z << 11) << 11 == z << 22 && (z << 22) << 22 == z << 44 && (z << 44) << 22 == 0;
  }

  lemma StageInjective(k: Shift, x: bv64, y: bv64)
    requires Stage(k, x) == Stage(k, y)
    ensures x == y
  {
    hide Xor, Shifted;
    XorExchange(x, Shifted(k, x), y, Shifted(k, y));
    ShiftIsLinear(k, x, y);
    ShiftFixpoint(k, Xor(x, y));
    XorZero(x, y);
  }

  lemma ScrambleInjective(x: bv64, y: bv64)
    requires Scramble(x) == Scramble(y)
    ensures x == y
  {
    hide Stage;
    var x1, y1 := Stage(Left12, x), Stage(Left12, y);
    var x2, y2 := Stage(Right32, x1), Stage(Right32, y1);
    StageInjective(Left11, Stage(Left32, x2), Stage(Left32, y2));
    StageInjective(Left32, x2, y2);
    StageInjective(Right32, x1, y1);
    StageInjective(Left12, x, y);
  }

  lemma TopBitSplits(d: bv64)
    requires Low(d) == d && Low(d) == 0
    ensures d == 0
  {
  }

  lemma MaskedXor(a: bv64, b: bv64)
    ensures Low(Xor(Low(a), Low(b))) == Xor(Low(a), Low(b))
  {
  }

  lemma AgreeingXor(s: bv64, t: bv64)
    requires Low(s) == Low(t)
    ensures Low(Xor(s, t)) == 0
  {
  }

  /** The low 63 bits of s and t agree, so the xor tells the top bit and then everything. */
  lemma XorRecovers(a: bv64, b: bv64, s: bv64, t: bv64)
    requires Xor(Low(a), s) == Xor(Low(b), t) && Low(s) == Low(t)
    ensures Low(a) == Low(b) && s == t
  {
    hide Xor, Low;
    MaskedXor(a, b);
    AgreeingXor(s, t);
    XorExchange(Low(a), s, Low(b), t);
    TopBitSplits(Xor(s, t));
    XorZero(Low(a), Low(b));
    XorZero(s, t);
  }

  lemma StepParts(st: State)
    ensures Step(st) == State(st.s1, Scramble(Xor(Low(st.s0), st.s1)))
  {
    hide Scramble, Xor, Low;
  }

  /** A step loses nothing of the 127 bits that count. */
  lemma StepInjective(a: State, b: State)
    requires Masked(Step(a)) == Masked(Step(b))
    ensures Masked(a) == Masked(b)
  {
    hide Scramble, Xor, Step, Low;
    StepParts(a);
    StepParts(b);
    ScrambleInjective(Xor(Low(a.s0), a.s1), Xor(Low(b.s0), b.s1));
    XorRecovers(a.s0, b.s0, a.s1, b.s1);
  }

  lemma ScrambleZero()
    ensures Scramble(0) == 0 && Xor(0, 0) == 0 && Low(0) == 0
  {
  }

  lemma StepKeepsLive(st: State)
    ensures Live(Step(st)) <==> Live(st)
  {
    var zero := State(0, 0);
    ScrambleZero();
    StepParts(zero);
    StepParts(st);
    hide Scramble, Step, Xor, Low;
    if !Live(Step(st)) {
      StepInjective(st, zero);
    }
  }

  lemma {:induction false} IterateInjective(a: State, b: State, n: nat)
    requires Masked(Iterate(a, n)) == Masked(Iterate(b, n))
    ensures Masked(a) == Masked(b)
  {
    hide Step, Masked;
    if n > 0 {
      StepInjective(Iterate(a, n - 1), Iterate(b, n - 1));
      IterateInjective(a, b, n - 1);
    }
  }

  lemma SeededLive(seed: bv64)
    ensures Live(Seeded(seed))
  {
    hide MixedUpTo;
  }

  /** A seeded generator never reaches the all-zero fixed point, however long it runs. */
  lemma {:induction false} NeverStuck(seed: bv64, n: nat)
    ensures Live(Iterate(Seeded(seed), n))
  {
    SeededLive(seed);
    hide Step, Live, Seeded;
    if n > 0 {
      NeverStuck(seed, n - 1);
      StepKeepsLive(Iterate(Seeded(seed), n - 1));
    }
  }

  // ----- rejection sampling -----

  lemma KeptAppend(draws: seq<U64>, v: U64)
    ensures Kept(draws + [v]) == if v < P57 then Kept(draws) + [v] else Kept(draws)
  {
    assert (draws + [v])[..|draws|] == draws;
  }

  lemma DrawsStep(st: State, n: nat)
    ensures Draws(st, n + 1) == Draws(st, n) + [Draw(Iterate(st, n + 1))]
    ensures Iterate(st, n + 1) == Step(Iterate(st, n))
  {
    hide Draw, Step;
  }

  /** More draws only extend what was kept. */
  lemma {:induction false} KeptGrows(st: State, n: nat, m: nat)
    requires n <= m
    ensures Kept(Draws(st, n)) <= Kept(Draws(st, m))
  {
    hide Draw, Draws, Iterate, Kept;
    if n < m {
      DrawsStep(st, m - 1);
      KeptGrows(st, n, m - 1);
      KeptAppend(Draws(st, m - 1), Draw(Iterate(st, m)));
    }
  }

  /** v is the vector of the given size that the seed determines. */
  ghost predicate IsVector(seed: bv64, size: nat, v: seq<U64>) {
    exists n: nat :: size <= |Kept(Draws(Seeded(seed), n))| && v == Kept(Draws(Seeded(seed), n))[..size]
  }

  /** A vector is a prefix of every longer vector from the same seed; in particular the vector
      of a given size is unique, however many draws were allowed. */
  lemma VectorPrefix(seed: bv64, size: nat, v: seq<U64>, size': nat, v': seq<U64>)
    requires IsVector(seed, size, v) && IsVector(seed, size', v') && size <= size'
    ensures |v| == size && v <= v' && forall i :: 0 <= i < size ==> v[i] < P57
    ensures size == size' ==> v == v'
  {
    hide Draws, Seeded;
    var n: nat :| size <= |Kept(Draws(Seeded(seed), n))| && v == Kept(Draws(Seeded(seed), n))[..size];
    var m: nat :| size' <= |Kept(Draws(Seeded(seed), m))| && v' == Kept(Draws(Seeded(seed), m))[..size'];
    if n <= m {
      KeptGrows(Seeded(seed), n, m);
    } else {
      KeptGrows(Seeded(seed), m, n);
    }
  }

  lemma ShorterVector(seed: bv64, size: nat, v: seq<U64>, less: nat)
    requires IsVector(seed, size, v) && less <= size
    ensures |v| == size && IsVector(seed, less, v[..less])
  {
    hide Draws, Seeded, Kept;
    var n: nat :| size <= |Kept(Draws(Seeded(seed), n))| && v == Kept(Draws(Seeded(seed), n))[..size];
    assert v[..less] == Kept(Draws(Seeded(seed), n))[..less];
  }

  // ----- recurrence -----

  const STATES: nat := 0x1_0000_0000_0000_0000_0000_0000_0000_0000

  ghost function WordValue(x: bv64): (v: nat)
    ensures v < 0x1_0000_0000_0000_0000
  {
    x as nat
  }

  /** The number of the state that counts. */
  ghost function Code(st: State): (k: int)
    ensures 0 <= k < STATES
  {
    WordValue(Low(st.s0)) * 0x1_0000_0000_0000_0000 + WordValue(st.s1)
  }

  lemma WordInjective(x: bv64, y: bv64)
    requires WordValue(x) == WordValue(y)
    ensures x == y
  {
    WordBack(x);
    WordBack(y);
  }

  lemma WordBack(x: bv64)
    ensures WordValue(x) as bv64 == x
  {
  }

  lemma DigitsUnique(a: nat, b: nat, c: nat, d: nat)
    requires b < 0x1_0000_0000_0000_0000 && d < 0x1_0000_0000_0000_0000
    requires a * 0x1_0000_0000_0000_0000 + b == c * 0x1_0000_0000_0000_0000 + d
    ensures a == c && b == d
  {
  }

  lemma CodeInjective(a: State, b: State)
    requires Code(a) == Code(b)
    ensures Masked(a) == Masked(b)
  {
    hide Low, WordValue;
    DigitsUnique(WordValue(Low(a.s0)), WordValue(a.s1), WordValue(Low(b.s0)), WordValue(b.s1));
    WordInjective(Low(a.s0), Low(b.s0));
    WordInjective(a.s1, b.s1);
  }

  /** The numbers of the first n states. */
  ghost function Codes(st: State, n: nat): set<int> {
    if n == 0 then {} else Codes(st, n - 1) + {Code(Iterate(st, n - 1))}
  }

  lemma {:induction false} CodesInRange(st: State, n: nat)
    ensures Codes(st, n) <= Range(STATES)
  {
    hide Code, Iterate;
    if n > 0 {
      CodesInRange(st, n - 1);
    }
  }

  lemma {:induction false} CodeSeen(st: State, n: nat, code: int) returns (i: nat)
    requires code in Codes(st, n)
    ensures i < n && Code(Iterate(st, i)) == code
  {
    hide Code, Iterate;
    if code == Code(Iterate(st, n - 1)) {
      i := n - 1;
    } else {
      i := CodeSeen(st, n - 1, code);
    }
  }

  /** Fewer numbers than states: some state repeats. */
  lemma {:induction false} Repeat(st: State, n: nat) returns (i: nat, j: nat)
    requires |Codes(st, n)| < n
    ensures i < j < n && Code(Iterate(st, i)) == Code(Iterate(st, j))
  {
    hide Code, Iterate;
    var code := Code(Iterate(st, n - 1));
    if code in Codes(st, n - 1) {
      i := CodeSeen(st, n - 1, code);
      j := n - 1;
    } else {
      i, j := Repeat(st, n - 1);
    }
  }

  lemma {:induction false} IterateAdd(st: State, i: nat, k: nat)
    ensures Iterate(st, i + k) == Iterate(Iterate(st, i), k)
  {
    hide Step;
    if k > 0 {
      IterateAdd(st, i, k - 1);
    }
  }

  /** The generator is periodic: injectivity carries a repetition back to the start. */
  lemma Period(st: State) returns (p: nat)
    ensures p > 0 && Masked(Iterate(st, p)) == Masked(st)
  {
    hide Codes, Range, Code, Iterate, Masked;
    var n := STATES + 1;
    CodesInRange(st, n);
    RangeSize(STATES);
    SubsetSize(Codes(st, n), Range(STATES));
    var i, j := Repeat(st, n);
    CodeInjective(Iterate(st, i), Iterate(st, j));
    p := j - i;
    IterateAdd(st, p, i);
    IterateInjective(Iterate(st, p), st, i);
  }

  lemma StepIgnoresTop(a: State, b: State)
    requires Masked(a) == Masked(b)
    ensures Step(a) == Step(b)
  {
    hide Scramble, Xor, Step, Low;
    StepParts(a);
    StepParts(b);
  }

  /** Every state after the first recurs with that period. */
  lemma {:induction false} Recurs(st: State, p: nat, k: nat, m: nat)
    requires k > 0 && Masked(Iterate(st, p)) == Masked(st)
    ensures Iterate(st, m * p + k) == Iterate(st, k)
    decreases m
  {
    hide Step, Masked, Iterate;
    if m > 0 {
      Recurs(st, p, k, m - 1);
      var i := (m - 1) * p + k;
      assert m * p + k == p + i;
      assert (m - 1) * p >= 0;
      IterateAdd(st, p, i);
      AfterMasked(Iterate(st, p), st, i);
    } else {
      assert m * p == 0;
    }
  }

  lemma {:induction false} AfterMasked(a: State, b: State, k: nat)
    requires Masked(a) == Masked(b) && k > 0
    ensures Iterate(a, k) == Iterate(b, k)
  {
    hide Step, Masked;
    if k == 1 {
      assert Iterate(a, 1) == Step(Iterate(a, 0)) && Iterate(b, 1) == Step(Iterate(b, 0));
      StepIgnoresTop(a, b);
    } else {
      AfterMasked(a, b, k - 1);
    }
  }

  ghost predicate AcceptedAt(st: State, a: nat) {
    a > 0 && Draw(Iterate(st, a)) < P57
  }

  /** Some draw of the seed's stream is accepted. */
  ghost predicate Accepting(seed: bv64) {
    exists a: nat :: AcceptedAt(Seeded(seed), a)
  }

  /** One accepted draw recurs for ever. */
  lemma NextAccepted(st: State, a: nat, n: nat) returns (m: nat)
    requires AcceptedAt(st, a)
    ensures m > n && AcceptedAt(st, m)
  {
    hide Draw, Iterate, Masked;
    var p := Period(st);
    Recurs(st, p, a, n + 1);
    m := (n + 1) * p + a;
    assert (n + 1) * p >= n + 1;
  }

  /** The accepted draw adds an entry. */
  lemma AcceptedCounts(st: State, n: nat, m: nat)
    requires n < m && AcceptedAt(st, m)
    ensures |Kept(Draws(st, m))| > |Kept(Draws(st, n))|
  {
    hide Draw, Draws, Iterate, Kept;
    KeptGrows(st, n, m - 1);
    DrawsStep(st, m - 1);
    KeptAppend(Draws(st, m - 1), Draw(Iterate(st, m)));
  }

  lemma {:induction false} EnoughDraws(st: State, a: nat, size: nat) returns (n: nat)
    requires AcceptedAt(st, a)
    ensures size <= |Kept(Draws(st, n))|
  {
    hide AcceptedAt, Draws, Kept;
    n := 0;
    if size > 0 {
      var before := EnoughDraws(st, a, size - 1);
      n := NextAccepted(st, a, before);
      AcceptedCounts(st, before, n);
    }
  }

  lemma {:induction false} KeptWasDrawn(st: State, n: nat) returns (a: nat)
    requires Kept(Draws(st, n)) != []
    ensures AcceptedAt(st, a)
  {
    hide Draw, Draws, Iterate, Kept;
    if n == 0 {
      NothingDrawn(st);
    } else {
      DrawsStep(st, n - 1);
      KeptAppend(Draws(st, n - 1), Draw(Iterate(st, n)));
      if Draw(Iterate(st, n)) < P57 {
        a := n;
      } else {
        a := KeptWasDrawn(st, n - 1);
      }
    }
  }

  lemma VectorOfSize(seed: bv64, size: nat) returns (v: seq<U64>)
    requires Accepting(seed)
    ensures IsVector(seed, size, v)
  {
    hide AcceptedAt, Draws, Kept, Seeded;
    var a: nat :| AcceptedAt(Seeded(seed), a);
    var n := EnoughDraws(Seeded(seed), a, size);
    v := Kept(Draws(Seeded(seed), n))[..size];
  }

  ghost predicate HasVector(seed: bv64, size: nat) {
    exists v :: IsVector(seed, size, v)
  }

  /** Rejection sampling finds vectors of every size exactly when it accepts a single draw. */
  lemma VectorsExactly(seed: bv64)
    ensures (forall size: nat :: HasVector(seed, size)) <==> Accepting(seed)
  {
    hide IsVector, Accepting;
    if Accepting(seed) {
      forall size: nat ensures HasVector(seed, size) {
        var v := VectorOfSize(seed, size);
      }
    } else if HasVector(seed, 1) {
      var v :| IsVector(seed, 1, v);
      FirstAccepted(seed, v);
    }
  }

  lemma FirstAccepted(seed: bv64, v: seq<U64>)
    requires IsVector(seed, 1, v)
    ensures Accepting(seed)
  {
    hide AcceptedAt, Draws, Kept, Seeded;
    var n: nat :| 1 <= |Kept(Draws(Seeded(seed), n))| && v == Kept(Draws(Seeded(seed), n))[..1];
    var a := KeptWasDrawn(Seeded(seed), n);
  }

  // ----- the program -----

  class Random {
    const status: array<bv64>
    const mat1: bv32
    const mat2: bv32
    const tmat: bv64

    ghost predicate Valid() {
      status.Length == 2
    }

    ghost function Value(): State
      requires Valid()
      reads status
    {
      State(status[0], status[1])
    }

    constructor (mat1: bv32, mat2: bv32, tmat: bv64)
      ensures Valid() && fresh(status) && Value() == State(0, 0)
      ensures this.mat1 == mat1 && this.mat2 == mat2 && this.tmat == tmat
    {
      status := new bv64[2](_ => 0);
      this.mat1, this.mat2, this.tmat := mat1, mat2, tmat;
    }

    method Init(seed: bv64)
      requires Valid()
      modifies status
      ensures Value() == Certified(MixedUpTo(State(seed ^ (mat1 as bv64 << 32), mat2 as bv64 ^ tmat), 8))
      ensures Live(Value())
    {
      status[0] := seed ^ (mat1 as bv64 << 32);
      status[1] := mat2 as bv64 ^ tmat;
      ghost var start := Value();
      hide *;
      MixedStep(start);
      for i := 1 to 8
        invariant Value() == MixedUpTo(start, i)
      {
        MixOnce(i);
      }
      PeriodCertification();
    }

    /** The body of the seeding loop. */
    method MixOnce(i: nat)
      requires Valid() && 1 <= i < 8
      modifies status
      ensures Value() == Mixed(old(Value()), i)
    {
      hide Mix;
      var previous := status[(i - 1) % 2];
      status[i % 2] := Mix(status[i % 2], previous, i);
    }

    method PeriodCertification()
      requires Valid()
      modifies status
      ensures Value() == Certified(old(Value())) && Live(Value())
      ensures Value() == if old(status[0]) & 0x7fff_ffff_ffff_ffff == 0 && old(status[1]) == 0 then State(0x54, 0x4D)
                         else old(Value())
    {
      if status[0] & TINYMT_MASK == 0 && status[1] == 0 {
        status[0] := 'T' as bv64;
        status[1] := 'M' as bv64;
      }
    }

    method NextState()
      requires Valid()
      modifies status
      ensures Value() == Next(old(Value()), mat1, mat2)
    {
      hide Low, Stage, Xor, Tapped;
      status[0] := Low(status[0]);
      var x := Xor(status[0], status[1]);
      x := Stage(Left12, x);
      x := Stage(Right32, x);
      x := Stage(Left32, x);
      x := Stage(Left11, x);
      status[0] := status[1];
      status[1] := x;
      status[0] := Tapped(status[0], x, mat1 as bv64);
      status[1] := Tapped(status[1], x, mat2 as bv64 << 32);
    }

    method GenerateUint64() returns (x: bv64)
      requires Valid()
      modifies status
      ensures Value() == Next(old(Value()), mat1, mat2) && x == Temper(Value(), tmat)
    {
      hide Next, Temper;
      NextState();
      x := Temper(State(status[0], status[1]), tmat);
    }

    /** One candidate: the low 57 bits of the next output. */
    method NextDraw() returns (val: U64)
      requires Valid() && mat1 == 0 && mat2 == 0 && tmat == 0
      modifies status
      ensures Value() == Step(old(Value())) && val == Draw(Value())
    {
      hide Next, Temper, Candidate;
      var x := GenerateUint64();
      val := Candidate(x);
    }

    /** `rand_mod_p`: the next accepted draw, after n draws since `origin`.  That draw m will be
        accepted bounds the loop. */
    method RandModP(ghost origin: State, ghost n: nat, ghost m: nat) returns (val: U64, ghost n': nat)
      requires Valid() && mat1 == 0 && mat2 == 0 && tmat == 0 && Value() == Iterate(origin, n)
      requires n < m && AcceptedAt(origin, m)
      modifies status
      ensures n < n' <= m && Value() == Iterate(origin, n')
      ensures Kept(Draws(origin, n')) == Kept(Draws(origin, n)) + [val]
    {
      hide *;
      n' := n;
      while true
        invariant n <= n' < m && Value() == Iterate(origin, n')
        invariant Kept(Draws(origin, n')) == Kept(Draws(origin, n))
        decreases m - n'
      {
        DrawsStep(origin, n');
        val := NextDraw();
        KeptAppend(Draws(origin, n'), val);
        AcceptedDraw(origin, n' + 1);
        n' := n' + 1;
        if val < P57 {
          return;
        }
      }
    }
  }

  lemma SomeAccepted(seed: bv64) returns (a: nat)
    requires Accepting(seed)
    ensures AcceptedAt(Seeded(seed), a)
  {
    hide AcceptedAt, Seeded;
    a :| AcceptedAt(Seeded(seed), a);
  }

  lemma AcceptedDraw(st: State, m: nat)
    ensures m > 0 ==> (AcceptedAt(st, m) <==> Draw(Iterate(st, m)) < P57)
  {
  }

  /** `rand_vector`: the first `size` accepted draws of the seed's stream. */
  method RandVector(size: nat, seed: bv64) returns (vector: seq<U64>)
    requires size == 0 || Accepting(seed)
    ensures IsVector(seed, size, vector)
  {
    hide *;
    var state := new Random(0, 0, 0);
    state.Init(seed);
    ghost var origin, n, a := Seeded(seed), 0, 0;
    SeedWithZeroMatrices(seed);
    NothingDrawn(origin);
    if size > 0 {
      a := SomeAccepted(seed);
    }
    vector := [];
    for i := 0 to size
      invariant |vector| == i
      invariant state.Valid() && fresh(state.status) && state.mat1 == 0 && state.mat2 == 0 && state.tmat == 0
      invariant state.Value() == Iterate(origin, n) && vector == Kept(Draws(origin, n))
    {
      ghost var m := NextAccepted(origin, a, n);
      var value, n' := state.RandModP(origin, n, m);
      n := n';
      vector := vector + [value];
    }
    VectorFound(seed, size, n, vector);
  }

  lemma SeedWithZeroMatrices(seed: bv64)
    ensures Seeded(seed) == Certified(MixedUpTo(State(seed ^ (0 as bv64 << 32), 0 as bv64 ^ 0), 8))
  {
    assert seed ^ (0 as bv64 << 32) == seed && 0 as bv64 ^ 0 == 0;
    hide MixedUpTo, Certified;
  }

  lemma NothingDrawn(st: State)
    ensures Iterate(st, 0) == st && Kept(Draws(st, 0)) == []
  {
  }

  lemma VectorFound(seed: bv64, size: nat, n: nat, v: seq<U64>)
    requires |v| == size && v == Kept(Draws(Seeded(seed), n))
    ensures IsVector(seed, size, v)
  {
    hide Kept, Draws, Seeded;
    assert v == Kept(Draws(Seeded(seed), n))[..size];
  }
}
