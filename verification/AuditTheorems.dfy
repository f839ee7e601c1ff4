/** What an audit verdict means: completeness for honest servers, detection of corruption. */
module AuditTheorems {
  import opened Words
  import opened Field
  import opened Primality
  import opened Linear
  import opened Layout
  import opened Por

  // ----- the partially reduced accumulators -----

  lemma {:induction false} FoldMeaning(a: seq<U64>, b: seq<U64>)
    requires |a| == |b|
    ensures Fold(a, b) <= P57
    ensures Congruent(Fold(a, b), Dot(a, b), P57)
  {
    if a == [] {
      CongruentRefl(0, P57);
    } else {
      var n := |a| - 1;
      FoldMeaning(a[..n], b[..n]);
      var f, p := Fold(a[..n], b[..n]), Product(a[n], b[n]);
      CongruentRefl(p, P57);
      CongruentSum(f, Dot(a[..n], b[..n]), p, p, P57);
      CongruentMod(f + p, P57);
      CongruentRefl(f + p, P57);
      CongruentTrans(Partial(f + p), f + p, Dot(a, b), P57);
    }
  }

  /** Whether a vanishing sum ends at P57 rather than at 0: its last nonzero product is below P57,
      or is P57 itself and was added to 0. */
  predicate EndsHigh(a: seq<U64>, b: seq<U64>)
    requires |a| == |b|
  {
    a != [] &&
    var p, before := Product(a[|a| - 1], b[|b| - 1]), EndsHigh(a[..|a| - 1], b[..|b| - 1]);
    if p == 0 then before else if p == P57 then !before else p < P57
  }

  lemma ModSmall(x: int, m: int)
    requires 0 <= x < m
    ensures x % m == x
  {
    ModUnique(x, m, 0, x);
  }

  lemma MultipleAbove(x: int, m: int)
    requires m > 0 && x > m && x % m == 0
    ensures x >= 2 * m
  {
    var k := x / m;
    assert x == k * m;
    ProductBounds(k - 1, m);
    assert (k - 1) * m == x - m;
    ProductBounds(k - 2, m);
    assert (k - 2) * m == x - 2 * m;
  }

  /** How one more nonzero product turns an accumulator into a representative of zero. */
  lemma ZeroStep(f: nat, p: nat, m: nat)
    requires m > 0 && f <= m && 0 < p
    requires (if f + p > m then (f + p) % m else f + p) % m == 0
    ensures p != m ==> (if f + p > m then (f + p) % m else f + p) == (if p < m then m else 0)
    ensures p == m ==> f in {0, m} && (if f + p > m then (f + p) % m else f + p) == m - f
  {
    var x := f + p;
    if x > m {
      ModSmall(x % m, m);
      MultipleAbove(x, m);
    } else if x < m {
      ModSmall(x, m);
    }
  }

  lemma {:induction false} FoldOfZero(a: seq<U64>, b: seq<U64>)
    requires |a| == |b| && Fold(a, b) % P57 == 0
    ensures Fold(a, b) == if EndsHigh(a, b) then P57 else 0
  {
    if a != [] {
      var n := |a| - 1;
      FoldMeaning(a[..n], b[..n]);
      var f, p := Fold(a[..n], b[..n]), Product(a[n], b[n]);
      if p == 0 {
        FoldOfZero(a[..n], b[..n]);
      } else {
        ZeroStep(f, p, P57);
        if p == P57 {
          FoldOfZero(a[..n], b[..n]) by { ZeroOrWhole(f, P57); }
        }
      }
    }
  }

  lemma ZeroOrWhole(f: nat, m: nat)
    requires m > 0 && f in {0, m}
    ensures f % m == 0
  {
  }

  lemma RepresentativesOf(f: nat, d: int, m: int)
    requires m > 0 && f <= m && f % m == d % m
    ensures d % m != 0 ==> f == d % m
    ensures d % m == 0 ==> f % m == 0
  {
    if f == m {
      ModUnique(f, m, 1, 0);
    } else {
      ModUnique(f, m, 0, f);
    }
  }

  /** The final accumulator, for arbitrary 64-bit entries: a nonzero residue is fully reduced. */
  lemma FoldValue(a: seq<U64>, b: seq<U64>)
    requires |a| == |b|
    ensures Fold(a, b) == if Dot(a, b) % P57 != 0 then Dot(a, b) % P57 else if EndsHigh(a, b) then P57 else 0
  {
    FoldMeaning(a, b);
    CongruentIffMod(Fold(a, b), Dot(a, b), P57);
    RepresentativesOf(Fold(a, b), Dot(a, b), P57);
    if Dot(a, b) % P57 == 0 {
      FoldOfZero(a, b);
    }
  }

  /** The audit compares the two sums modulo P57, except that a zero residue must also be
      represented alike on both sides. */
  lemma VerdictMeaning(r: seq<U64>, u: seq<U64>, c: seq<U64>, n: seq<U64>)
    requires |r| == |u| && |c| == |n|
    ensures Fold(r, u) == Fold(c, n)
      <==> Dot(r, u) % P57 == Dot(c, n) % P57
           && (Dot(r, u) % P57 != 0 || (EndsHigh(r, u) <==> EndsHigh(c, n)))
  {
    FoldValue(r, u);
    FoldValue(c, n);
  }

  /** The verdict on arbitrary 64-bit challenges and responses, for any contract whose vectors are
      long enough. */
  lemma AcceptsExactly(config: ClientConfig, challenge: seq<U64>, response: seq<U64>)
    requires config.cols <= |config.secretM| && config.rows <= |config.secretN|
    ensures Accepts(config, challenge, response)
      <==> && |response| == config.cols && |challenge| == config.rows
           && var u, n := config.secretM[..config.cols], config.secretN[..config.rows];
              Dot(response, u) % P57 == Dot(challenge, n) % P57
              && (Dot(response, u) % P57 != 0 || (EndsHigh(response, u) <==> EndsHigh(challenge, n)))
  {
    if |response| == config.cols && |challenge| == config.rows {
      VerdictMeaning(response, config.secretM[..config.cols], challenge, config.secretN[..config.rows]);
    }
  }

  // ----- honest servers -----

  /** The configuration that tagging a file produces. */
  function ConfigOf(file: seq<bv8>, u: seq<U64>): ClientConfig
    requires file != [] && |u| == FileCols(file)
  {
    ClientConfig(FileRows(file), FileCols(file), u, Tags(file, u))
  }

  /** The bilinear form both sides of an honest audit compute. */
  function Evidence(file: seq<bv8>, c: seq<int>, u: seq<int>): int
    requires file != [] && |c| == FileRows(file) && |u| == FileCols(file)
  {
    Dot(Respond(Matrix(file), c), u)
  }

  lemma AnswerEvidence(file: seq<bv8>, c: seq<U64>, u: seq<U64>)
    requires file != [] && |c| == FileRows(file) && |u| == FileCols(file)
    ensures Dot(Answer(file, c), u) % P57 == Evidence(file, c, u) % P57
  {
    DotReduced(Respond(Matrix(file), c), u);
    CongruentIffMod(Dot(Answer(file, c), u), Evidence(file, c, u), P57);
  }

  lemma TagEvidence(file: seq<bv8>, c: seq<U64>, u: seq<U64>)
    requires file != [] && |c| == FileRows(file) && |u| == FileCols(file)
    ensures Dot(c, Tags(file, u)) % P57 == Evidence(file, c, u) % P57
  {
    var w := Project(u, Matrix(file), FileRows(file));
    PairingExchange(Matrix(file), c, u);
    DotReduced(w, c);
    DotCommutes(w, c);
    DotCommutes(Tags(file, u), c);
    CongruentIffMod(Dot(Tags(file, u), c), Dot(w, c), P57);
  }

  /** A server that answers from `served` is audited by a client that tagged `file`. */
  ghost predicate Audited(file: seq<bv8>, served: seq<bv8>, c: seq<U64>, u: seq<U64>) {
    && file != [] && served != []
    && FileRows(served) == FileRows(file) == |c| && FileCols(served) == FileCols(file) == |u|
    && InField(c) && InField(u)
  }

  ghost predicate Passes(file: seq<bv8>, served: seq<bv8>, c: seq<U64>, u: seq<U64>)
    requires Audited(file, served, c, u)
  {
    Accepts(ConfigOf(file, u), c, Answer(served, c))
  }

  /** Both accumulators represent a zero residue in the same way. */
  ghost predicate AlikeAtZero(file: seq<bv8>, served: seq<bv8>, c: seq<U64>, u: seq<U64>)
    requires Audited(file, served, c, u)
  {
    EndsHigh(Answer(served, c), u) <==> EndsHigh(c, Tags(file, u))
  }

  /** A challenge for the tagged file that a server may answer from any file with no more rows. */
  ghost predicate Challenged(file: seq<bv8>, served: seq<bv8>, c: seq<U64>, u: seq<U64>) {
    && file != [] && served != [] && |c| == FileRows(file) && FileRows(served) <= |c| && |u| == FileCols(file)
    && InField(c) && InField(u)
  }

  /** The server's answer reads as much of the challenge as its own file has rows. */
  function AnswerTo(served: seq<bv8>, c: seq<U64>): seq<U64>
    requires served != [] && FileRows(served) <= |c|
  {
    Answer(served, c[..FileRows(served)])
  }

  /** The verdict, exactly, whatever file the server answers from: a different number of slices is
      rejected; otherwise the two evidences must agree modulo P57 and show a zero residue alike. */
  lemma AuditVerdict(file: seq<bv8>, served: seq<bv8>, c: seq<U64>, u: seq<U64>)
    requires Challenged(file, served, c, u)
    ensures Accepts(ConfigOf(file, u), c, AnswerTo(served, c))
      <==> && FileCols(served) == FileCols(file)
           && Evidence(served, c[..FileRows(served)], u) % P57 == Evidence(file, c, u) % P57
           && (Evidence(file, c, u) % P57 != 0
               || (EndsHigh(AnswerTo(served, c), u) <==> EndsHigh(c, Tags(file, u))))
  {
    hide FileRows, FileCols, Matrix, Evidence, Answer, Tags;
    if FileCols(served) == FileCols(file) {
      AnswerEvidence(served, c[..FileRows(served)], u);
      TagEvidence(file, c, u);
      VerdictMeaning(AnswerTo(served, c), u, c, Tags(file, u));
      assert u[..FileCols(file)] == u && Tags(file, u)[..FileRows(file)] == Tags(file, u);
    }
  }

  lemma SameShapeVerdict(file: seq<bv8>, served: seq<bv8>, c: seq<U64>, u: seq<U64>)
    requires Audited(file, served, c, u)
    ensures Passes(file, served, c, u)
      <==> Evidence(served, c, u) % P57 == Evidence(file, c, u) % P57
           && (Evidence(file, c, u) % P57 != 0 || AlikeAtZero(file, served, c, u))
  {
    hide FileRows, FileCols, Matrix, Evidence, Answer, Tags;
    AuditVerdict(file, served, c, u);
    assert c[..FileRows(served)] == c;
  }

  /** Completeness: an honest server passes, unless the evidence vanishes modulo P57 and the two
      accumulators end at the two different representatives of zero. */
  lemma HonestServerPasses(file: seq<bv8>, c: seq<U64>, u: seq<U64>)
    requires Audited(file, file, c, u)
    ensures Passes(file, file, c, u) <==> Evidence(file, c, u) % P57 != 0 || AlikeAtZero(file, file, c, u)
  {
    SameShapeVerdict(file, file, c, u);
  }

  /** The two accumulators of an honest audit agree modulo P57, and a zero residue leaves each of
      them at 0 or at P57. */
  lemma HonestAccumulators(file: seq<bv8>, c: seq<U64>, u: seq<U64>)
    requires Audited(file, file, c, u)
    ensures Congruent(Fold(Answer(file, c), u), Fold(c, Tags(file, u)), P57)
    ensures Evidence(file, c, u) % P57 == 0 ==>
      Fold(Answer(file, c), u) in {0, P57} && Fold(c, Tags(file, u)) in {0, P57}
  {
    hide FileRows, FileCols, Matrix, Answer, Tags, Evidence;
    AnswerEvidence(file, c, u);
    TagEvidence(file, c, u);
    FoldValue(Answer(file, c), u);
    FoldValue(c, Tags(file, u));
    AgreeingRepresentatives(Fold(Answer(file, c), u), Fold(c, Tags(file, u)));
  }

  lemma AgreeingRepresentatives(f: int, g: int)
    requires f == g || (f in {0, P57} && g in {0, P57})
    ensures Congruent(f, g, P57)
  {
    CongruentBy(f, g, P57, if f == g then 0 else if f == P57 then 1 else -1);
  }

  // ----- corruption -----

  /** The sum over all cells of (served - original) * challenge * secret. */
  function Discrepancy(file: seq<bv8>, served: seq<bv8>, c: seq<int>, u: seq<int>): int
    requires file != [] && served != []
    requires FileRows(served) == FileRows(file) == |c| && FileCols(served) == FileCols(file) == |u|
  {
    Dot(Respond(MatrixMinus(Matrix(served), Matrix(file), |c|), c), u)
  }

  lemma ModOfDifference(a: int, b: int)
    ensures a % P57 == b % P57 <==> (a - b) % P57 == 0
  {
    CongruentIffMod(a, b, P57);
    CongruentIffMod(a - b, 0, P57);
    if Congruent(a, b, P57) {
      var t :| Multiple(a, b, t, P57);
      CongruentBy(a - b, 0, P57, t);
    }
    if Congruent(a - b, 0, P57) {
      var t :| Multiple(a - b, 0, t, P57);
      CongruentBy(a, b, P57, t);
    }
  }

  /** A corrupted server passes only if its discrepancy vanishes modulo P57. */
  lemma CorruptServerPasses(file: seq<bv8>, served: seq<bv8>, c: seq<U64>, u: seq<U64>)
    requires Audited(file, served, c, u)
    ensures Passes(file, served, c, u)
      <==> Discrepancy(file, served, c, u) % P57 == 0
           && (Evidence(file, c, u) % P57 != 0 || AlikeAtZero(file, served, c, u))
  {
    hide FileRows, FileCols, Matrix, Answer, Tags, Passes, AlikeAtZero;
    SameShapeVerdict(file, served, c, u);
    PairingMinus(Matrix(served), Matrix(file), c, u);
    ModOfDifference(Evidence(served, c, u), Evidence(file, c, u));
  }

  /** Two files of one length agree except inside the 7-byte chunk at slice i, position j. */
  ghost predicate DifferInChunk(file: seq<bv8>, served: seq<bv8>, i: nat, j: nat) {
    && file != [] && |served| == |file|
    && i < FileCols(file) && j < FileRows(file)
    && forall b :: 0 <= b < |file| && b / 7 != Base(FileRows(file), i) + j ==> served[b] == file[b]
  }

  lemma OtherChunkUnchanged(file: seq<bv8>, served: seq<bv8>, cell: nat, k: nat)
    requires |served| == |file| && k != cell
    requires forall b :: 0 <= b < |file| && b / 7 != cell ==> served[b] == file[b]
    ensures ChunkAt(served, k) == ChunkAt(file, k)
  {
    var x, y := ChunkBytes(served, k), ChunkBytes(file, k);
    forall t | 0 <= t < 7 ensures x[t] == y[t] {
      assert (7 * k + t) / 7 == k;
    }
    assert x == y;
  }

  lemma CellsDiffer(rows: nat, i: nat, j: nat, i': nat, j': nat)
    requires j < rows && j' < rows && Base(rows, i) + j == Base(rows, i') + j'
    ensures i == i' && j == j'
  {
    ModUnique(Base(rows, i) + j, rows, i, j);
    ModUnique(Base(rows, i') + j', rows, i', j');
  }

  /** Only one entry of the matrix changes. */
  lemma OneEntryChanges(file: seq<bv8>, served: seq<bv8>, i: nat, j: nat, i': nat, j': nat)
    requires DifferInChunk(file, served, i, j)
    requires i' < FileCols(file) && j' < FileRows(file) && (i' != i || j' != j)
    ensures Matrix(served)[i'][j'] == Matrix(file)[i'][j']
  {
    var rows := FileRows(file);
    if Base(rows, i') + j' == Base(rows, i) + j {
      CellsDiffer(rows, i, j, i', j');
    }
    OtherChunkUnchanged(file, served, Base(rows, i) + j, Base(rows, i') + j');
  }

  lemma ChangedEntry(file: seq<bv8>, served: seq<bv8>, i: nat, j: nat)
    requires DifferInChunk(file, served, i, j) && served != file
    ensures Matrix(served)[i][j] != Matrix(file)[i][j]
  {
    if Matrix(served)[i][j] == Matrix(file)[i][j] {
      var m, m' := Matrix(file), Matrix(served);
      forall i' | 0 <= i' < |m| ensures m'[i'] == m[i'] {
        forall j' | 0 <= j' < FileRows(file) ensures m'[i'][j'] == m[i'][j'] {
          if i' != i || j' != j {
            OneEntryChanges(file, served, i, j, i', j');
          }
        }
      }
      MatrixInjective(file, served);
    }
  }

  /** A matrix with a single nonzero entry pairs to a single product. */
  lemma OneEntryPairing(d: seq<seq<int>>, c: seq<int>, u: seq<int>, i: nat, j: nat)
    requires |d| == |u| && Shape(d, |c|) && i < |u| && j < |c|
    requires forall i', j' :: 0 <= i' < |u| && 0 <= j' < |c| && (i' != i || j' != j) ==> d[i'][j'] == 0
    ensures Dot(Respond(d, c), u) == d[i][j] * c[j] * u[i]
  {
    var r := Respond(d, c);
    forall j' | 0 <= j' < |c| && j' != j ensures d[i][j'] * c[j'] == 0 {
      assert d[i][j'] == 0;
    }
    DotSingle(d[i], c, j);
    forall i' | 0 <= i' < |u| && i' != i ensures r[i'] * u[i'] == 0 {
      forall j' | 0 <= j' < |c| ensures d[i'][j'] * c[j'] == 0 {
        assert d[i'][j'] == 0;
      }
      DotVanishes(d[i'], c);
    }
    DotSingle(r, u, i);
  }

  function ChunkChange(file: seq<bv8>, served: seq<bv8>, i: nat, j: nat): int
    requires file != [] && |served| == |file| && i < FileCols(file) && j < FileRows(file)
  {
    var after: int, before: int := Matrix(served)[i][j], Matrix(file)[i][j];
    after - before
  }

  /** The discrepancy of a one-chunk change is a single product. */
  lemma OneChunkDiscrepancy(file: seq<bv8>, served: seq<bv8>, c: seq<U64>, u: seq<U64>, i: nat, j: nat)
    requires Audited(file, served, c, u) && DifferInChunk(file, served, i, j)
    ensures Discrepancy(file, served, c, u) == ChunkChange(file, served, i, j) * c[j] * u[i]
  {
    hide FileRows, FileCols, Matrix;
    var d := MatrixMinus(Matrix(served), Matrix(file), |c|);
    forall i': nat, j': nat | i' < |u| && j' < |c| && (i' != i || j' != j) ensures d[i'][j'] == 0 {
      OneEntryChanges(file, served, i, j, i', j');
    }
    OneEntryPairing(d, c, u, i, j);
  }

  lemma ChunkDifferenceIsUnit(x: nat, y: nat)
    requires x < CHUNK_LIMIT && y < CHUNK_LIMIT && x != y
    ensures (x - y) % P57 != 0
  {
    ModOfDifference(x, y);
    ModSmall(x, P57);
    ModSmall(y, P57);
  }

  lemma ProductOfUnits(d: int, x: int, y: int)
    requires d % P57 != 0 && 0 < x < P57 && 0 < y < P57
    ensures (d * x * y) % P57 != 0
  {
    PrimeP57();
    ModSmall(x, P57);
    ModSmall(y, P57);
    NoZeroDivisors(d, x, P57);
    NoZeroDivisors(d * x, y, P57);
  }

  /** Detection: a server that changed one chunk is rejected whenever the challenge and the secret
      give that chunk a nonzero weight. */
  lemma OneChunkIsDetected(file: seq<bv8>, served: seq<bv8>, c: seq<U64>, u: seq<U64>, i: nat, j: nat)
    requires Audited(file, served, c, u) && DifferInChunk(file, served, i, j) && served != file
    requires c[j] != 0 && u[i] != 0
    ensures !Passes(file, served, c, u)
  {
    hide FileRows, FileCols, Matrix, Answer, Tags, Evidence, Discrepancy, Passes, AlikeAtZero;
    CorruptServerPasses(file, served, c, u);
    OneChunkDiscrepancy(file, served, c, u, i, j);
    ChangedEntry(file, served, i, j);
    MatrixEntryBound(file, i, j);
    MatrixEntryBound(served, i, j);
    ChunkDifferenceIsUnit(Matrix(served)[i][j], Matrix(file)[i][j]);
    ProductOfUnits(ChunkChange(file, served, i, j), c[j], u[i]);
  }

  // ----- corruption that carries no weight -----

  lemma {:induction false} SameProducts(a: seq<U64>, a': seq<U64>, b: seq<U64>)
    requires |a| == |a'| == |b|
    requires forall k :: 0 <= k < |b| ==> Product(a[k], b[k]) == Product(a'[k], b[k])
    ensures Fold(a, b) == Fold(a', b)
  {
    if b != [] {
      SameProducts(a[..|a| - 1], a'[..|a'| - 1], b[..|b| - 1]);
    }
  }

  lemma {:induction false} SamePairing(a: seq<int>, a': seq<int>, b: seq<int>)
    requires |a| == |a'| == |b|
    requires forall k :: 0 <= k < |b| && b[k] != 0 ==> a[k] == a'[k]
    ensures Dot(a, b) == Dot(a', b)
  {
    if b != [] {
      SamePairing(a[..|a| - 1], a'[..|a'| - 1], b[..|b| - 1]);
    }
  }

  /** The answers of two servers that differ in one chunk agree wherever the weight is nonzero. */
  lemma UnweightedAnswer(file: seq<bv8>, served: seq<bv8>, c: seq<U64>, u: seq<U64>, i: nat, j: nat, k: nat)
    requires Audited(file, served, c, u) && DifferInChunk(file, served, i, j) && k < |u|
    requires k != i || c[j] == 0
    ensures Answer(served, c)[k] == Answer(file, c)[k]
  {
    hide FileRows, FileCols, Matrix;
    var a, b := Matrix(file)[k], Matrix(served)[k];
    forall t: nat | t < |c| && c[t] != 0 ensures b[t] == a[t] {
      OneEntryChanges(file, served, i, j, k, t);
    }
    SamePairing(b, a, c);
  }

  lemma UnweightedChunk(file: seq<bv8>, served: seq<bv8>, c: seq<U64>, u: seq<U64>, i: nat, j: nat)
    requires Audited(file, served, c, u) && DifferInChunk(file, served, i, j)
    requires c[j] == 0 || u[i] == 0
    ensures Passes(file, served, c, u) == Passes(file, file, c, u)
  {
    hide FileRows, FileCols, Matrix, Answer, Tags;
    var a, b := Answer(file, c), Answer(served, c);
    forall k: nat | k < |u| ensures Product(b[k], u[k]) == Product(a[k], u[k]) {
      if k != i || c[j] == 0 {
        UnweightedAnswer(file, served, c, u, i, j, k);
      }
    }
    SameProducts(b, a, u);
    assert u[..FileCols(file)] == u;
  }

  /** The exact verdict on a one-chunk change: the audit notices it if and only if the chunk has a
      nonzero weight; otherwise it is judged as the original file is. */
  lemma OneChunkVerdict(file: seq<bv8>, served: seq<bv8>, c: seq<U64>, u: seq<U64>, i: nat, j: nat)
    requires Audited(file, served, c, u) && DifferInChunk(file, served, i, j) && served != file
    ensures Passes(file, served, c, u) <==> (c[j] == 0 || u[i] == 0) && Passes(file, file, c, u)
  {
    hide FileRows, FileCols, Passes;
    if c[j] == 0 || u[i] == 0 {
      UnweightedChunk(file, served, c, u, i, j);
    } else {
      OneChunkIsDetected(file, served, c, u, i, j);
    }
  }

  // ----- arbitrary corruption -----

  /** The linear form in the challenge that a corruption leaves behind. */
  function Trace(file: seq<bv8>, served: seq<bv8>, u: seq<int>): (w: seq<int>)
    requires file != [] && served != [] && FileRows(served) == FileRows(file)
    requires FileCols(served) == FileCols(file) == |u|
    ensures |w| == FileRows(file)
  {
    Project(u, MatrixMinus(Matrix(served), Matrix(file), FileRows(file)), FileRows(file))
  }

  lemma DiscrepancyIsTrace(file: seq<bv8>, served: seq<bv8>, c: seq<U64>, u: seq<U64>)
    requires Audited(file, served, c, u)
    ensures Discrepancy(file, served, c, u) == Dot(c, Trace(file, served, u))
  {
    PairingExchange(MatrixMinus(Matrix(served), Matrix(file), |c|), c, u);
  }

  lemma DifferenceAtOne(c: seq<int>, c': seq<int>, w: seq<int>, j: nat)
    requires |c| == |c'| == |w| && j < |c|
    requires forall k :: 0 <= k < |c| && k != j ==> c[k] == c'[k]
    ensures Dot(c, w) - Dot(c', w) == (c[j] - c'[j]) * w[j]
  {
    hide Dot;
    DotMinus(c, c', w);
    var d := Minus(c, c');
    assert forall k :: 0 <= k < |d| && k != j ==> d[k] == 0;
    DotSingle(d, w, j);
    assert d[j] == c[j] - c'[j];
  }

  /** Two values of one challenge entry that make the same form vanish are equal. */
  lemma EqualByUnit(x: nat, y: nat, w: int, f: int, g: int)
    requires x < P57 && y < P57 && w % P57 != 0
    requires f % P57 == 0 && g % P57 == 0 && f - g == (x - y) * w
    ensures x == y
  {
    ModOfDifference(f, g);
    var d: int := x - y;
    PrimeP57();
    NoZeroDivisors(d, w, P57);
    ModOfDifference(x, y);
    ModSmall(x, P57);
    ModSmall(y, P57);
  }

  /** Soundness: whatever was corrupted, if the trace is nonzero at position j then, with the other
      challenge entries fixed, at most one of the P57 values of entry j lets the server pass. */
  lemma AtMostOneChallenge(file: seq<bv8>, served: seq<bv8>, c: seq<U64>, c': seq<U64>, u: seq<U64>, j: nat)
    requires Audited(file, served, c, u) && Audited(file, served, c', u) && j < |c|
    requires forall k :: 0 <= k < |c| && k != j ==> c[k] == c'[k]
    requires Trace(file, served, u)[j] % P57 != 0
    requires Passes(file, served, c, u) && Passes(file, served, c', u)
    ensures c == c'
  {
    hide FileRows, FileCols, Matrix, Passes, Trace, Discrepancy, Evidence, AlikeAtZero, Answer, Tags;
    var w := Trace(file, served, u);
    CorruptServerPasses(file, served, c, u);
    CorruptServerPasses(file, served, c', u);
    DiscrepancyIsTrace(file, served, c, u);
    DiscrepancyIsTrace(file, served, c', u);
    DifferenceAtOne(c, c', w, j);
    EqualByUnit(c[j], c'[j], w[j], Dot(c, w), Dot(c', w));
  }

  lemma {:induction false} ProjectOneSlice(u: seq<int>, d: seq<seq<int>>, n: nat, i: nat, j: nat)
    requires |u| == |d| && Shape(d, n) && i < |d| && j < n
    requires forall i' :: 0 <= i' < |d| && i' != i ==> d[i'][j] == 0
    ensures Project(u, d, n)[j] == u[i] * d[i][j]
  {
    var k := |d| - 1;
    if i < k {
      ProjectOneSlice(u[..k], d[..k], n, i, j);
    } else {
      ProjectNothing(u[..k], d[..k], n, j);
    }
  }

  lemma {:induction false} ProjectNothing(u: seq<int>, d: seq<seq<int>>, n: nat, j: nat)
    requires |u| == |d| && Shape(d, n) && j < n
    requires forall i' :: 0 <= i' < |d| ==> d[i'][j] == 0
    ensures Project(u, d, n)[j] == 0
  {
    if d != [] {
      ProjectNothing(u[..|d| - 1], d[..|d| - 1], n, j);
    }
  }

  /** Any damage confined to one slice, however many of its chunks it touches, leaves a nonzero
      trace at every chunk it changed. */
  lemma SliceDamageLeavesTrace(file: seq<bv8>, served: seq<bv8>, u: seq<U64>, i: nat, j: nat)
    requires file != [] && |served| == |file| && |u| == FileCols(file) && InField(u)
    requires i < |u| && j < FileRows(file) && u[i] != 0
    requires forall i' :: 0 <= i' < |u| && i' != i ==> Matrix(served)[i'] == Matrix(file)[i']
    requires Matrix(served)[i][j] != Matrix(file)[i][j]
    ensures Trace(file, served, u)[j] % P57 != 0
  {
    MatrixEntryBound(file, i, j);
    MatrixEntryBound(served, i, j);
    hide FileRows, FileCols, Matrix;
    var d := MatrixMinus(Matrix(served), Matrix(file), FileRows(file));
    ProjectOneSlice(u, d, FileRows(file), i, j);
    ChunkDifferenceIsUnit(Matrix(served)[i][j], Matrix(file)[i][j]);
    UnitTimesUnit(u[i], d[i][j]);
  }

  lemma {:induction false} ProjectDifference(u: seq<int>, u': seq<int>, d: seq<seq<int>>, n: nat, i: nat, j: nat)
    requires |u| == |u'| == |d| && Shape(d, n) && i < |d| && j < n
    requires forall k :: 0 <= k < |u| && k != i ==> u[k] == u'[k]
    ensures Project(u, d, n)[j] - Project(u', d, n)[j] == (u[i] - u'[i]) * d[i][j]
  {
    var k := |d| - 1;
    if i < k {
      ProjectDifference(u[..k], u'[..k], d[..k], n, i, j);
    } else {
      assert u[..k] == u'[..k];
      assert (u[k] - u'[k]) * d[k][j] == u[k] * d[k][j] - u'[k] * d[k][j];
    }
  }

  /** The dual: if chunk (i, j) was changed then, with the other secrets fixed, at most one of the
      P57 values of secret i makes the trace vanish at position j. */
  lemma AtMostOneSecret(file: seq<bv8>, served: seq<bv8>, u: seq<U64>, u': seq<U64>, i: nat, j: nat)
    requires file != [] && |served| == |file| && |u| == |u'| == FileCols(file) && InField(u) && InField(u')
    requires i < |u| && j < FileRows(file) && Matrix(served)[i][j] != Matrix(file)[i][j]
    requires forall k :: 0 <= k < |u| && k != i ==> u[k] == u'[k]
    requires Trace(file, served, u)[j] % P57 == 0 && Trace(file, served, u')[j] % P57 == 0
    ensures u == u'
  {
    MatrixEntryBound(file, i, j);
    MatrixEntryBound(served, i, j);
    hide FileRows, FileCols, Matrix;
    var d := MatrixMinus(Matrix(served), Matrix(file), FileRows(file));
    ProjectDifference(u, u', d, FileRows(file), i, j);
    ChunkDifferenceIsUnit(Matrix(served)[i][j], Matrix(file)[i][j]);
    hide MatrixMinus, Project;
    EqualByUnit(u[i], u'[i], d[i][j], Trace(file, served, u)[j], Trace(file, served, u')[j]);
  }

  /** The two vectors differ at most at position k. */
  ghost predicate AgreeExcept(a: seq<U64>, b: seq<U64>, k: nat) {
    |a| == |b| && forall t :: 0 <= t < |a| && t != k ==> a[t] == b[t]
  }

  /** The secret does not see the corruption at position j. */
  ghost predicate Blind(file: seq<bv8>, served: seq<bv8>, u: seq<U64>, j: nat) {
    && file != [] && |served| == |file| && |u| == FileCols(file) && InField(u) && j < FileRows(file)
    && Trace(file, served, u)[j] % P57 == 0
  }

  lemma BlindSecretsAgree(file: seq<bv8>, served: seq<bv8>, u: seq<U64>, u': seq<U64>, i: nat, j: nat)
    requires Blind(file, served, u, j) && Blind(file, served, u', j) && AgreeExcept(u, u', i)
    requires i < |u| && Matrix(served)[i][j] != Matrix(file)[i][j]
    ensures u == u'
  {
    hide FileRows, FileCols, Matrix, Trace;
    AtMostOneSecret(file, served, u, u', i, j);
  }

  /** The secret sees the corruption at position j, and still the audit accepts. */
  ghost predicate Slips(file: seq<bv8>, served: seq<bv8>, c: seq<U64>, u: seq<U64>, j: nat) {
    !Blind(file, served, u, j) && Audited(file, served, c, u) && Passes(file, served, c, u)
  }

  lemma SlippingChallengesAgree(file: seq<bv8>, served: seq<bv8>, c: seq<U64>, c': seq<U64>, u: seq<U64>, j: nat)
    requires file != [] && |served| == |file| && j < FileRows(file)
    requires Slips(file, served, c, u, j) && Slips(file, served, c', u, j) && AgreeExcept(c, c', j)
    ensures c == c'
  {
    hide FileRows, FileCols, Passes, Trace;
    AtMostOneChallenge(file, served, c, c', u, j);
  }

  /** Soundness against any corruption of any extent: some secret i and challenge entry j decide.
      Whatever the other secrets are, all but at most one value of secret i see the corruption; and
      then, whatever the other challenge entries are, all but at most one value of entry j make the
      audit reject. */
  lemma AnyCorruption(file: seq<bv8>, served: seq<bv8>) returns (i: nat, j: nat)
    requires file != [] && |served| == |file| && served != file
    ensures i < FileCols(file) && j < FileRows(file)
    ensures forall u, u' :: Blind(file, served, u, j) && Blind(file, served, u', j) && AgreeExcept(u, u', i) ==> u == u'
    ensures forall c, c', u :: Slips(file, served, c, u, j) && Slips(file, served, c', u, j) && AgreeExcept(c, c', j) ==> c == c'
  {
    i, j := ChangedChunk(file, served);
    hide FileRows, FileCols, Matrix, Slips, Blind, AgreeExcept;
    forall u, u' | Blind(file, served, u, j) && Blind(file, served, u', j) && AgreeExcept(u, u', i) ensures u == u' {
      BlindLength(file, served, u, j);
      BlindSecretsAgree(file, served, u, u', i, j);
    }
    forall c, c', u | Slips(file, served, c, u, j) && Slips(file, served, c', u, j) && AgreeExcept(c, c', j)
      ensures c == c'
    {
      SlippingChallengesAgree(file, served, c, c', u, j);
    }
  }

  lemma BlindLength(file: seq<bv8>, served: seq<bv8>, u: seq<U64>, j: nat)
    requires Blind(file, served, u, j)
    ensures |u| == FileCols(file)
  {
  }

  /** Two files of one length differ in some entry of their matrices. */
  lemma ChangedChunk(file: seq<bv8>, served: seq<bv8>) returns (i: nat, j: nat)
    requires file != [] && |served| == |file| && served != file
    ensures i < FileCols(file) && j < FileRows(file) && Matrix(served)[i][j] != Matrix(file)[i][j]
  {
    var m, m' := Matrix(file), Matrix(served);
    if m == m' {
      MatrixInjective(file, served);
    }
    i :| 0 <= i < |m| && m[i] != m'[i];
    j :| 0 <= j < FileRows(file) && m[i][j] != m'[i][j];
  }

  lemma UnitTimesUnit(x: nat, y: int)
    requires 0 < x < P57 && y % P57 != 0
    ensures (x * y) % P57 != 0
  {
    PrimeP57();
    ModSmall(x, P57);
    NoZeroDivisors(x, y, P57);
  }
}
