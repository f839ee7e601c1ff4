/** Audits with the vectors the program itself draws: a file whose honest server is rejected, and
    small files of which every one-chunk change is caught. */
module DrawnAudits {
  import opened Words
  import opened Field
  import opened Linear
  import opened Layout
  import opened Por
  import opened AuditTheorems
  import opened Generator
  import opened KnownAnswers

  const SECRET: U64 := 57829946736570845
  const FIRST: nat := 7701101241548325
  const LAST: nat := 68084940780912599

  function ZeroBytes(n: nat): (bs: seq<bv8>)
    ensures |bs| == n && forall k :: 0 <= k < n ==> bs[k] == 0
  {
    seq(n, _ => 0)
  }

  /** A file of eight chunks, of which only the second and the last are not zero. */
  function UnluckyFile(): (file: seq<bv8>)
    ensures |file| == 56
  {
    ZeroBytes(7) + LeBytes(FIRST, 7) + ZeroBytes(35) + LeBytes(LAST, 7)
  }

  lemma UnluckyShape()
    ensures FileRows(UnluckyFile()) == 56 && FileCols(UnluckyFile()) == 1
  {
    RowsUnique(8, 56);
  }

  lemma ZeroChunk(file: seq<bv8>, c: nat)
    requires forall k :: 7 * c <= k < 7 * c + 7 ==> PaddedByte(file, k) == 0
    ensures ChunkAt(file, c) == 0
  {
    LeValueOfSeven(ChunkBytes(file, c));
  }

  lemma UnluckyChunk(j: nat)
    ensures ChunkAt(UnluckyFile(), j) == if j == 1 then FIRST else if j == 7 then LAST else 0
  {
    hide LeBytes;
    var file := UnluckyFile();
    PowersOf256();
    if j == 1 {
      assert ChunkBytes(file, j) == LeBytes(FIRST, 7);
      ValueOfBytes(FIRST, 7);
    } else if j == 7 {
      assert ChunkBytes(file, j) == LeBytes(LAST, 7);
      ValueOfBytes(LAST, 7);
    } else {
      ZeroChunk(file, j);
    }
  }

  lemma UnluckyRow()
    ensures FileRows(UnluckyFile()) == 56 && FileCols(UnluckyFile()) == 1
    ensures Sparse(Matrix(UnluckyFile())[0])
  {
    hide UnluckyFile;
    UnluckyShape();
    var row := Matrix(UnluckyFile())[0];
    forall j: nat | j < 56 ensures row[j] == if j == 1 then FIRST else if j == 7 then LAST else 0 {
      UnluckyChunk(j);
      assert Base(56, 0) + j == j;
    }
  }

  ghost predicate Sparse(row: seq<int>) {
    |row| == 56 && forall j :: 0 <= j < 56 ==> row[j] == if j == 1 then FIRST else if j == 7 then LAST else 0
  }

  /** The challenge of every audit of a 56-row file. */
  lemma ChallengeEntries(c: seq<U64>)
    requires IsVector(20, 56, c)
    ensures |c| == 56 && InField(c) && Nonzero(c) && c[1] == 45123648461735385 && c[7] == 30506379899125528
  {
    hide IsVector;
    var drawn := ChallengeOf56();
    VectorPrefix(20, 56, drawn, 56, c);
  }

  /** The secret of every one-slice file. */
  lemma SecretEntries(u: seq<U64>)
    requires IsVector(2020, 1, u)
    ensures u == [SECRET] && InField(u)
  {
    hide IsVector;
    FirstSecret();
    VectorPrefix(2020, 1, [SECRET], 1, u);
  }

  // ----- both sides of its audit -----

  lemma {:induction false} OnlyPrefixMatters(a: seq<U64>, b: seq<U64>, k: nat)
    requires |a| == |b| && k <= |a| && forall t :: k <= t < |b| ==> b[t] == 0
    ensures Dot(a, b) == Dot(a[..k], b[..k])
    ensures EndsHigh(a, b) == EndsHigh(a[..k], b[..k])
  {
    if k == |a| {
      assert a[..k] == a && b[..k] == b;
    } else {
      var n := |a| - 1;
      OnlyPrefixMatters(a[..n], b[..n], k);
      assert a[..n][..k] == a[..k] && b[..n][..k] == b[..k];
    }
  }

  /** The slice pairs with the challenge to a multiple of P57. */
  lemma UnluckyPairing(row: seq<U64>, c: seq<U64>)
    requires Sparse(row) && |c| == 56 && c[1] == 45123648461735385 && c[7] == 30506379899125528
    ensures Dot(row, c) == 16823534607522983 * P57
  {
    OnlyPrefixMatters(c, row, 8);
    var a, b := c[..8], row[..8];
    assert a[..7][1] == c[1] && b[..7][1] == FIRST;
    DotSingle(a[..7], b[..7], 1);
    var x: int, y: int := a[7], b[7];
    assert Dot(a, b) == Dot(a[..7], b[..7]) + x * y;
    DotCommutes(row, c);
  }

  /** So the server answers zero, and its side of the audit ends at 0. */
  lemma UnluckyAnswer(file: seq<bv8>, c: seq<U64>)
    requires file != [] && FileRows(file) == 56 && FileCols(file) == 1 && Sparse(Matrix(file)[0])
    requires |c| == 56 && c[1] == 45123648461735385 && c[7] == 30506379899125528
    ensures Answer(file, c) == [0] && Evidence(file, c, [SECRET]) % P57 == 0
    ensures !EndsHigh(Answer(file, c), [SECRET])
  {
    hide FileRows, FileCols, Matrix;
    RowIsBounded(file, 0);
    UnluckyPairing(Matrix(file)[0], c);
    ModUnique(16823534607522983 * P57, P57, 16823534607522983, 0);
    assert Answer(file, c)[0] == 0;
    AnswerEvidence(file, c, [SECRET]);
    DotVanishes(Answer(file, c), [SECRET]);
  }

  /** The last tag that counts is 4, small enough for the client's side to end at P57. */
  lemma UnluckyTags(file: seq<bv8>, c: seq<U64>)
    requires file != [] && FileRows(file) == 56 && FileCols(file) == 1 && Sparse(Matrix(file)[0])
    requires |c| == 56 && c[1] == 45123648461735385 && c[7] == 30506379899125528
    ensures EndsHigh(c, Tags(file, [SECRET]))
  {
    hide FileRows, FileCols, Matrix;
    var n := Tags(file, [SECRET]);
    forall j: nat | j < 56 ensures n[j] == (SECRET * Matrix(file)[0][j]) % P57 {
      ProjectOneSlice([SECRET], Matrix(file), 56, 0, j);
    }
    ModUnique(SECRET * LAST, P57, 27320843496733389, 4);
    assert forall j :: 8 <= j < 56 ==> n[j] == 0;
    OnlyPrefixMatters(c, n, 8);
  }

  /** Completeness is not unconditional: whoever keeps this file honestly is rejected, with the
      secret and the challenge that the program draws for it. */
  lemma HonestServerRejected(c: seq<U64>, u: seq<U64>)
    requires IsVector(20, 56, c) && IsVector(2020, 1, u)
    ensures Audited(UnluckyFile(), UnluckyFile(), c, u) && !Passes(UnluckyFile(), UnluckyFile(), c, u)
  {
    hide *;
    ChallengeEntries(c);
    SecretEntries(u);
    UnluckyRow();
    UnluckyAnswer(UnluckyFile(), c);
    UnluckyTags(UnluckyFile(), c);
    RejectedWhen(UnluckyFile(), c, u);
  }

  /** And it happens: the program does draw such vectors. */
  lemma RejectionHappens() returns (c: seq<U64>, u: seq<U64>)
    ensures IsVector(20, 56, c) && IsVector(2020, 1, u)
    ensures Audited(UnluckyFile(), UnluckyFile(), c, u) && !Passes(UnluckyFile(), UnluckyFile(), c, u)
  {
    hide *;
    c := ChallengeOf56();
    u := [57829946736570845];
    FirstSecret();
    HonestServerRejected(c, u);
  }

  lemma RejectedWhen(file: seq<bv8>, c: seq<U64>, u: seq<U64>)
    requires file != [] && |c| == FileRows(file) && |u| == FileCols(file) && InField(c) && InField(u)
    requires Evidence(file, c, u) % P57 == 0 && !EndsHigh(Answer(file, c), u) && EndsHigh(c, Tags(file, u))
    ensures Audited(file, file, c, u) && !Passes(file, file, c, u)
  {
    hide FileRows, FileCols, Answer, Tags, Evidence, Passes;
    HonestServerPasses(file, c, u);
  }

  // ----- small files -----

  lemma SmallShape(file: seq<bv8>)
    requires 0 < |file| <= 392
    ensures FileRows(file) == 56 && FileCols(file) == 1
  {
    RowsUnique(NumChunks(|file|), 56);
  }

  /** No drawn weight is zero: in a file of at most 392 bytes every change inside one chunk is
      rejected. */
  lemma SmallChangeIsCaught(file: seq<bv8>, served: seq<bv8>, c: seq<U64>, u: seq<U64>, i: nat, j: nat)
    requires 0 < |file| <= 392 && DifferInChunk(file, served, i, j) && served != file
    requires IsVector(20, 56, c) && IsVector(2020, 1, u)
    ensures Audited(file, served, c, u) && !Passes(file, served, c, u)
  {
    SmallShape(file);
    assert |served| == |file| && i == 0 && j < 56;
    SmallShape(served);
    hide FileRows, FileCols, IsVector, DifferInChunk, Passes;
    ChallengeEntries(c);
    SecretEntries(u);
    OneChunkIsDetected(file, served, c, u, i, j);
  }
}
