/** The proof-of-retrievability protocol: tagging a file, answering a challenge, auditing. */
module Por {
  import opened Words
  import opened Field
  import opened Linear
  import opened Layout

  datatype ClientConfig = ClientConfig(rows: nat, cols: nat, secretM: seq<U64>, secretN: seq<U64>)

  datatype ServerConfig = ServerConfig(rows: nat, cols: nat, file: seq<bv8>)

  predicate InField(v: seq<int>) {
    forall i :: 0 <= i < |v| ==> 0 <= v[i] < P57
  }

  // ----- specification -----

  /** The client's tags: n = u^T * M mod P57. */
  function Tags(file: seq<bv8>, u: seq<int>): (n: seq<U64>)
    requires file != [] && |u| == FileCols(file)
    ensures |n| == FileRows(file) && InField(n)
  {
    Reduced(Project(u, Matrix(file), FileRows(file)))
  }

  /** The server's answer: r = M * c mod P57. */
  function Answer(file: seq<bv8>, c: seq<int>): (r: seq<U64>)
    requires file != [] && |c| == FileRows(file)
    ensures |r| == FileCols(file) && InField(r)
  {
    Reduced(Respond(Matrix(file), c))
  }

  /** The partial reduction of the audit's accumulators: the test is strict. */
  function Partial(x: nat): nat {
    if x > P57 then x % P57 else x
  }

  /** An audit accumulator after all products of two vectors. */
  function Fold(a: seq<U64>, b: seq<U64>): nat
    requires |a| == |b|
  {
    if a == [] then 0
    else Partial(Fold(a[..|a| - 1], b[..|b| - 1]) + Product(a[|a| - 1], b[|b| - 1]))
  }

  function Product(x: U64, y: U64): (r: nat)
    ensures r <= 0xFFFF_FFFF_FFFF_FFFE_0000_0000_0000_0001
    ensures r == x * y
  {
    ProductLimit(x, y, 0xFFFF_FFFF_FFFF_FFFF, 0xFFFF_FFFF_FFFF_FFFF);
    x * y
  }

  lemma ProductLimit(x: nat, y: nat, a: nat, b: nat)
    requires x <= a && y <= b
    ensures 0 <= x * y <= a * b
  {
    assert x * y <= a * y <= a * b;
  }

  /** The vectors are long enough for the loops that will index them. */
  predicate Indexable(config: ClientConfig, challenge: seq<U64>, response: seq<U64>) {
    |response| == config.cols && |challenge| == config.rows
    ==> config.cols <= |config.secretM| && config.rows <= |config.secretN|
  }

  predicate Accepts(config: ClientConfig, challenge: seq<U64>, response: seq<U64>)
    requires Indexable(config, challenge, response)
  {
    && |response| == config.cols && |challenge| == config.rows
    && Fold(response, config.secretM[..config.cols]) == Fold(challenge, config.secretN[..config.rows])
  }

  // ----- when every sum stays inside 128 bits -----

  ghost predicate Fit(sums: seq<int>) {
    forall k :: 0 <= k < |sums| ==> 0 <= sums[k] < 0x1_0000_0000_0000_0000_0000_0000_0000_0000
  }

  /** No sum of the answering loops leaves 128 bits: sums only grow, so their final values decide. */
  ghost predicate AnswerFits(file: seq<bv8>, c: seq<U64>)
    requires file != [] && |c| == FileRows(file)
  {
    Fit(Respond(Matrix(file), c))
  }

  /** No sum of the tagging loops leaves 128 bits. */
  ghost predicate TagsFit(file: seq<bv8>, u: seq<U64>)
    requires file != [] && |u| == FileCols(file)
  {
    Fit(Project(u, Matrix(file), FileRows(file)))
  }

  /** Sums over prefixes are at most the whole sum. */
  lemma {:induction false} DotGrows(a: seq<nat>, c: seq<nat>, j: nat)
    requires |a| == |c| && j <= |a|
    ensures 0 <= Dot(a[..j], c[..j]) <= Dot(a, c)
  {
    if j == |a| {
      assert a[..j] == a && c[..j] == c;
      if j > 0 {
        DotGrows(a[..j - 1], c[..j - 1], j - 1);
        assert a[..j - 1][..j - 1] == a[..j - 1] && c[..j - 1][..j - 1] == c[..j - 1];
        ProductLimit(a[j - 1], c[j - 1], a[j - 1], c[j - 1]);
      }
    } else {
      var n := |a| - 1;
      DotGrows(a[..n], c[..n], j);
      assert a[..n][..j] == a[..j] && c[..n][..j] == c[..j];
      ProductLimit(a[n], c[n], a[n], c[n]);
    }
  }

  lemma PairStep(row: seq<nat>, c: seq<nat>, j: nat)
    requires j < |row| == |c|
    ensures Dot(row[..j + 1], c[..j + 1]) == Dot(row[..j], c[..j]) + row[j] * c[j]
    ensures 0 <= Dot(row[..j + 1], c[..j + 1]) <= Dot(row, c)
  {
    assert row[..j + 1][..j] == row[..j] && c[..j + 1][..j] == c[..j];
    DotGrows(row, c, j + 1);
  }

  lemma {:induction false} ProjectGrows(u: seq<nat>, m: seq<seq<nat>>, n: nat, i: nat, j: nat)
    requires |u| == |m| && Shape(m, n) && i <= |u| && j < n
    ensures 0 <= Project(u[..i], m[..i], n)[j] <= Project(u, m, n)[j]
  {
    if i == |u| {
      assert u[..i] == u && m[..i] == m;
      if i > 0 {
        ProjectGrows(u[..i - 1], m[..i - 1], n, i - 1, j);
        assert u[..i - 1][..i - 1] == u[..i - 1] && m[..i - 1][..i - 1] == m[..i - 1];
        ProductLimit(u[i - 1], m[i - 1][j], u[i - 1], m[i - 1][j]);
      }
    } else {
      var k := |u| - 1;
      ProjectGrows(u[..k], m[..k], n, i, j);
      assert u[..k][..i] == u[..i] && m[..k][..i] == m[..i];
      ProductLimit(u[k], m[k][j], u[k], m[k][j]);
    }
  }

  /** A sum of products below two limits. */
  lemma {:induction false} DotBound(a: seq<nat>, c: seq<nat>, x: nat, y: nat)
    requires |a| == |c|
    requires forall k :: 0 <= k < |a| ==> a[k] <= x && c[k] <= y
    ensures 0 <= Dot(a, c) <= |a| * (x * y)
  {
    if a != [] {
      var n := |a| - 1;
      DotBound(a[..n], c[..n], x, y);
      ProductLimit(a[n], c[n], x, y);
      assert |a| * (x * y) == n * (x * y) + x * y;
    }
  }

  lemma {:induction false} ProjectBound(u: seq<nat>, m: seq<seq<nat>>, n: nat, j: nat, x: nat, y: nat)
    requires |u| == |m| && Shape(m, n) && j < n
    requires forall i :: 0 <= i < |m| ==> m[i][j] <= x && u[i] <= y
    ensures 0 <= Project(u, m, n)[j] <= |u| * (x * y)
  {
    if m != [] {
      var k := |m| - 1;
      ProjectBound(u[..k], m[..k], n, j, x, y);
      ProductLimit(m[k][j], u[k], x, y);
      assert u[k] * m[k][j] == m[k][j] * u[k];
      assert |u| * (x * y) == k * (x * y) + x * y;
    }
  }

  /** How many products of a chunk with a field element, or with any 64-bit word, always fit. */
  lemma TermsFit(k: nat)
    ensures k <= 32768 ==> k * ((CHUNK_LIMIT - 1) * (P57 - 1)) <= U128_MAX
    ensures k <= 256 ==> k * ((CHUNK_LIMIT - 1) * 0xFFFF_FFFF_FFFF_FFFF) <= U128_MAX
    ensures k > 256 ==> k * ((CHUNK_LIMIT - 1) * 0xFFFF_FFFF_FFFF_FFFF) > U128_MAX
  {
    var x, y := (CHUNK_LIMIT - 1) * (P57 - 1), (CHUNK_LIMIT - 1) * 0xFFFF_FFFF_FFFF_FFFF;
    if k <= 32768 {
      ProductLimit(k, x, 32768, x);
    }
    if k <= 256 {
      ProductLimit(k, y, 256, y);
    } else {
      ProductLimit(257, y, k, y);
    }
  }

  /** Challenges in the field never overflow on files of at most 32768 rows. */
  lemma FieldAnswerFits(file: seq<bv8>, c: seq<U64>)
    requires file != [] && |c| == FileRows(file) <= 32768 && InField(c)
    ensures AnswerFits(file, c)
  {
    hide FileRows, FileCols, Matrix;
    TermsFit(|c|);
    forall i: nat | i < FileCols(file) ensures 0 <= Respond(Matrix(file), c)[i] <= U128_MAX {
      RowIsBounded(file, i);
      DotBound(Matrix(file)[i], c, CHUNK_LIMIT - 1, P57 - 1);
    }
  }

  lemma FieldTagsFit(file: seq<bv8>, u: seq<U64>)
    requires file != [] && |u| == FileCols(file) <= 32768 && InField(u)
    ensures TagsFit(file, u)
  {
    hide FileRows, FileCols, Matrix;
    TermsFit(|u|);
    var sums := Project(u, Matrix(file), FileRows(file));
    forall j: nat | j < FileRows(file) ensures 0 <= sums[j] <= U128_MAX {
      forall i: nat | i < |u| ensures Matrix(file)[i][j] <= CHUNK_LIMIT - 1 {
        MatrixEntryBound(file, i, j);
      }
      ProjectBound(u, Matrix(file), FileRows(file), j, CHUNK_LIMIT - 1, P57 - 1);
    }
  }

  /** Files of at most 224 rows can be asked anything. */
  lemma ShortAnswerFits(file: seq<bv8>, c: seq<U64>)
    requires file != [] && |c| == FileRows(file) < 280
    ensures AnswerFits(file, c)
  {
    RowsBounds(NumChunks(|file|));
    hide FileRows, FileCols, Matrix;
    TermsFit(|c|);
    forall i: nat | i < FileCols(file) ensures 0 <= Respond(Matrix(file), c)[i] <= U128_MAX {
      RowIsBounded(file, i);
      DotBound(Matrix(file)[i], c, CHUNK_LIMIT - 1, 0xFFFF_FFFF_FFFF_FFFF);
    }
  }

  function FullFile(len: nat): (file: seq<bv8>)
    ensures |file| == len
  {
    seq(len, _ => 0xFF)
  }

  function FullChallenge(rows: nat): (c: seq<U64>)
    ensures |c| == rows && forall k :: 0 <= k < rows ==> c[k] == 0xFFFF_FFFF_FFFF_FFFF
  {
    seq<U64>(rows, _ => 0xFFFF_FFFF_FFFF_FFFF)
  }

  lemma {:induction false} DotOfConstants(a: seq<nat>, c: seq<nat>, x: nat, y: nat)
    requires |a| == |c|
    requires forall k :: 0 <= k < |a| ==> a[k] == x && c[k] == y
    ensures Dot(a, c) == |a| * (x * y)
  {
    if a != [] {
      var n := |a| - 1;
      DotOfConstants(a[..n], c[..n], x, y);
      assert |a| * (x * y) == n * (x * y) + x * y;
    }
  }

  /** Every chunk of the first slice of a tall file of 0xFF bytes is 2^56 - 1. */
  lemma FullSlice(len: nat, j: nat)
    requires len > 0 && FileRows(FullFile(len)) >= 280 && j < FileRows(FullFile(len))
    ensures Matrix(FullFile(len))[0][j] == CHUNK_LIMIT - 1
  {
    var n, file := NumChunks(len), FullFile(len);
    var rows := Rows(n);
    RowsBounds(n);
    ProductLimit(224, rows - 56, rows - 56, rows - 56);
    assert 7 * j + 6 < len;
    assert Base(rows, 0) + j == j;
    LeValueOfSeven(ChunkBytes(file, j));
  }

  /** From 280 rows on, a file of 0xFF bytes and a challenge of largest words overflow. */
  lemma TallFileOverflows(len: nat)
    requires len > 0 && FileRows(FullFile(len)) >= 280
    ensures !AnswerFits(FullFile(len), FullChallenge(FileRows(FullFile(len))))
  {
    hide Matrix, FileRows, FileCols, FullFile, FullChallenge;
    var file := FullFile(len);
    var rows := FileRows(file);
    var c, row := FullChallenge(rows), Matrix(file)[0];
    forall j: nat | j < rows ensures row[j] == CHUNK_LIMIT - 1 {
      FullSlice(len, j);
    }
    DotOfConstants(row, c, CHUNK_LIMIT - 1, 0xFFFF_FFFF_FFFF_FFFF);
    TermsFit(rows);
    assert Respond(Matrix(file), c)[0] > U128_MAX;
  }

  ghost predicate Overflowing(len: nat, file: seq<bv8>, c: seq<U64>)
    requires len > 0
  {
    |file| == len && |c| == FileRows(file) && !AnswerFits(file, c)
  }

  /** Some file of this length can be made to overflow by some challenge exactly when it has 280
      rows or more. */
  lemma OverflowExactly(len: nat)
    requires len > 0
    ensures (exists file, c :: Overflowing(len, file, c)) <==> Rows(NumChunks(len)) >= 280
  {
    hide AnswerFits, Rows;
    if Rows(NumChunks(len)) >= 280 {
      TallFileOverflows(len);
      assert Overflowing(len, FullFile(len), FullChallenge(FileRows(FullFile(len))));
    } else {
      forall file, c | Overflowing(len, file, c) ensures false {
        ShortAnswerFits(file, c);
      }
    }
  }

  // ----- the program -----

  /** `VerificationServerConfig::from_file` */
  function ServerFromFile(file: seq<bv8>): (config: ServerConfig)
    requires file != []
  {
    ServerConfig(FileRows(file), FileCols(file), file)
  }

  /** One slice of the padded buffer, as 64-bit words. */
  method SliceWords(file: seq<bv8>, i: nat) returns (words: seq<bv64>, ghost slice: seq<bv8>)
    requires file != [] && i < FileCols(file)
    ensures Spells(words, slice, Matrix(file)[i])
  {
    var rows := FileRows(file);
    var extended := Extended(file, rows);
    SliceInBounds(file, i);
    SliceOffset(rows, i);
    var bytes := extended[7 * rows * i..7 * rows * (i + 1)];
    slice := bytes;
    words := WordsOf(bytes);
    forall j | 0 <= j < rows ensures LeValue(slice[7 * j..7 * j + 7]) == Matrix(file)[i][j] {
      GroupIsChunk(file, rows, i, j, slice);
    }
  }

  /** The words of a slice spell out its chunks, seven words to eight chunks. */
  ghost predicate Spells(words: seq<bv64>, slice: seq<bv8>, row: seq<nat>) {
    && |row| % 8 == 0 && |slice| == 7 * |row| && |slice| % 8 == 0 && words == WordsOf(slice)
    && forall j :: 0 <= j < |row| ==> row[j] < CHUNK_LIMIT && LeValue(slice[7 * j..7 * j + 7]) == row[j]
  }

  lemma GroupOfBlock(slice: seq<bv8>, row: seq<nat>, at: nat, full: nat, k: nat)
    requires |slice| == 7 * |row| && 8 * at == 7 * full && full + k < |row|
    requires forall j :: 0 <= j < |row| ==> LeValue(slice[7 * j..7 * j + 7]) == row[j]
    ensures LeValue(slice[8 * at + 7 * k..8 * at + 7 * k + 7]) == row[full + k]
  {
    assert 8 * at + 7 * k == 7 * (full + k);
  }

  /** The next chunk of a slice: position k of the block of eight that starts at `full`. */
  method NextChunk(words: seq<bv64>, at: nat, full: nat, k: nat, ghost slice: seq<bv8>, ghost row: seq<nat>)
    returns (value: nat)
    requires Spells(words, slice, row) && 8 * at == 7 * full && full + 8 <= |row| && k < 8
    ensures value == row[full + k] < CHUNK_LIMIT
  {
    value := UnpackChunk(words, at, k, slice);
    GroupOfBlock(slice, row, at, full, k);
  }

  lemma FittingStep(sums: seq<int>, weight: int, row: seq<int>, j: nat)
    requires |sums| == |row| && j < |row| && Fit(AddScaled(sums, weight, row))
    ensures AddScaled(sums, weight, row)[j] == sums[j] + row[j] * weight
    ensures 0 <= sums[j] + row[j] * weight < 0x1_0000_0000_0000_0000_0000_0000_0000_0000
  {
    AddScaledAt(sums, weight, row, j);
  }

  method AddChunk(partials: array<U128>, j: nat, value: nat, weight: U64, ghost total: int)
    requires j < partials.Length && partials[j] + value * weight == total
    requires 0 <= total < 0x1_0000_0000_0000_0000_0000_0000_0000_0000
    modifies partials
    ensures partials[j] == total && forall i :: 0 <= i < partials.Length && i != j ==> partials[i] == old(partials[i])
  {
    partials[j] := partials[j] + value * weight;
  }

  /** The body of the client's outer loop: adds a weighted slice to the partial sums. */
  method AddSlice(partials: array<U128>, words: seq<bv64>, weight: U64, ghost slice: seq<bv8>, ghost row: seq<nat>)
    requires Spells(words, slice, row) && |row| == partials.Length && |row| % 8 == 0
    requires Fit(AddScaled(partials[..], weight, row))
    modifies partials
    ensures partials[..] == AddScaled(old(partials[..]), weight, row)
  {
    hide *;
    var rows := partials.Length;
    ghost var target := AddScaled(partials[..], weight, row);
    var at, full := 0, 0;
    ghost var b, blocks := 0, rows / 8;
    assert rows == 8 * blocks;
    while full < rows
      invariant b <= blocks && full == 8 * b && at == 7 * b
      invariant forall j :: 0 <= j < full ==> partials[j] == target[j]
      invariant forall j :: full <= j < rows ==> partials[j] == old(partials[j])
    {
      for k := 0 to 8
        invariant forall j :: 0 <= j < full + k ==> partials[j] == target[j]
        invariant forall j :: full + k <= j < rows ==> partials[j] == old(partials[j])
      {
        var value := NextChunk(words, at, full, k, slice, row);
        FittingStep(old(partials[..]), weight, row, full + k);
        AddChunk(partials, full + k, value, weight, target[full + k]);
      }
      at, full, b := at + 7, full + 8, b + 1;
    }
    assert partials[..] == target;
  }

  method ReduceAll(sums: array<U128>) returns (residues: seq<U64>)
    modifies sums
    ensures residues == Reduced(old(sums[..])) == sums[..]
  {
    for k := 0 to sums.Length
      invariant forall j :: 0 <= j < k ==> sums[j] == old(sums[j]) % P57
      invariant forall j :: k <= j < sums.Length ==> sums[j] == old(sums[j])
    {
      sums[k] := sums[k] % P57;
    }
    assert sums[..] == Reduced(old(sums[..]));
    residues := sums[..];
  }

  lemma RowsAreWholeWords(file: seq<bv8>)
    requires file != []
    ensures FileRows(file) % 8 == 0
  {
    RowsBounds(NumChunks(|file|));
    WholeWords(FileRows(file));
  }

  lemma StoredFileFits(file: seq<bv8>)
    requires 0 < |file| <= MAX_FILE_BYTES
    ensures FileCols(file) <= FileRows(file) <= 12432
  {
    Dimensions(NumChunks(|file|));
    RowsOfStoredFile(|file|);
  }

  /** What the client's outer loop needs about its partial sums before slice i. */
  lemma ProjectStep(file: seq<bv8>, u: seq<U64>, i: nat)
    requires file != [] && |u| == FileCols(file) && TagsFit(file, u) && i < |u|
    ensures Project(u[..i + 1], Matrix(file)[..i + 1], FileRows(file))
         == AddScaled(Project(u[..i], Matrix(file)[..i], FileRows(file)), u[i], Matrix(file)[i])
    ensures Fit(Project(u[..i + 1], Matrix(file)[..i + 1], FileRows(file)))
  {
    hide FileRows, FileCols, Matrix;
    var m, rows := Matrix(file), FileRows(file);
    assert u[..i + 1][..i] == u[..i] && m[..i + 1][..i] == m[..i];
    var sums := Project(u[..i + 1], m[..i + 1], rows);
    forall j: nat | j < rows ensures 0 <= sums[j] <= Project(u, m, rows)[j] {
      ProjectGrows(u, m, rows, i + 1, j);
    }
  }

  lemma TagsAreResidues(file: seq<bv8>, u: seq<nat>)
    requires file != [] && |u| == FileCols(file)
    ensures Project(u[..0], Matrix(file)[..0], FileRows(file)) == Zeros(FileRows(file))
    ensures Tags(file, u) == Reduced(Project(u[..|u|], Matrix(file)[..|u|], FileRows(file)))
  {
    assert u[..|u|] == u && Matrix(file)[..|u|] == Matrix(file);
  }

  /** `VerificationClientConfig::from_file`, for the secret vector u it has drawn. */
  method ClientFromFile(file: seq<bv8>, u: seq<U64>) returns (config: ClientConfig)
    requires file != [] && |u| == FileCols(file) && TagsFit(file, u)
    ensures config == ClientConfig(FileRows(file), FileCols(file), u, Tags(file, u))
  {
    var rows, cols := FileRows(file), FileCols(file);
    RowsAreWholeWords(file);
    TagsAreResidues(file, u);
    var partials := new U128[rows](_ => 0);
    assert partials[..] == Zeros(rows);
    for i := 0 to cols
      invariant partials[..] == Project(u[..i], Matrix(file)[..i], rows)
    {
      hide *;
      var words, slice := SliceWords(file, i);
      ProjectStep(file, u, i);
      assert forall j :: 0 <= j < rows ==> partials[j] == partials[..][j];
      AddSlice(partials, words, u[i], slice, Matrix(file)[i]);
    }
    var tags := ReduceAll(partials);
    config := ClientConfig(rows, cols, u, tags);
  }

  /** The body of the server's outer loop: pairs a slice with the challenge. */
  method PairSlice(words: seq<bv64>, challenge: seq<U64>, ghost slice: seq<bv8>, ghost row: seq<nat>)
    returns (sum: U128)
    requires Spells(words, slice, row) && |row| == |challenge| && |row| % 8 == 0
    requires Dot(row, challenge) < 0x1_0000_0000_0000_0000_0000_0000_0000_0000
    ensures sum == Dot(row, challenge)
  {
    hide *;
    var rows := |challenge|;
    var at, full := 0, 0;
    sum := 0;
    ghost var b, blocks := 0, rows / 8;
    assert rows == 8 * blocks;
    DotNothing(row[..0], challenge[..0]);
    while full < rows
      invariant b <= blocks && full == 8 * b && at == 7 * b
      invariant sum == Dot(row[..full], challenge[..full])
    {
      for k := 0 to 8
        invariant sum == Dot(row[..full + k], challenge[..full + k])
      {
        var value := NextChunk(words, at, full, k, slice, row);
        PairStep(row, challenge, full + k);
        sum := sum + value * challenge[full + k];
      }
      at, full, b := at + 7, full + 8, b + 1;
    }
    assert row[..rows] == row && challenge[..rows] == challenge;
  }

  lemma RowIsBounded(file: seq<bv8>, i: nat)
    requires file != [] && i < FileCols(file)
    ensures |Matrix(file)[i]| == FileRows(file)
    ensures forall j :: 0 <= j < |Matrix(file)[i]| ==> Matrix(file)[i][j] < CHUNK_LIMIT
  {
  }

  lemma AnswerIsReduced(config: ServerConfig, challenge: seq<U64>)
    requires config.file != [] && config == ServerFromFile(config.file)
    requires config.rows <= |challenge|
    ensures config.rows == FileRows(config.file) && config.cols == FileCols(config.file)
    ensures Answer(config.file, challenge[..config.rows])
         == Reduced(Respond(Matrix(config.file), challenge[..config.rows]))
  {
  }

  lemma SumOfAnswer(file: seq<bv8>, c: seq<U64>, i: nat)
    requires file != [] && |c| == FileRows(file) && AnswerFits(file, c) && i < FileCols(file)
    ensures Respond(Matrix(file), c)[i] == Dot(Matrix(file)[i], c)
    ensures 0 <= Dot(Matrix(file)[i], c) < 0x1_0000_0000_0000_0000_0000_0000_0000_0000
  {
    hide FileRows, FileCols, Matrix;
    assert Respond(Matrix(file), c)[i] == Dot(Matrix(file)[i], c);
  }

  /** `VerificationServer::fulfill_challenge`: the loops read the first `rows` challenge entries. */
  method FulfillChallenge(config: ServerConfig, challenge: seq<U64>) returns (response: seq<U64>)
    requires config.file != [] && config == ServerFromFile(config.file)
    requires config.rows <= |challenge| && AnswerFits(config.file, challenge[..config.rows])
    ensures response == Answer(config.file, challenge[..config.rows])
  {
    hide *;
    var file, rows, cols := config.file, config.rows, config.cols;
    AnswerIsReduced(config, challenge);
    RowsAreWholeWords(file);
    var c := challenge[..rows];
    ghost var target := Respond(Matrix(file), c);
    var dots := new U128[cols](_ => 0);
    for i := 0 to cols
      invariant forall j :: 0 <= j < i ==> dots[j] == target[j]
    {
      RowIsBounded(file, i);
      var words, slice := SliceWords(file, i);
      SumOfAnswer(file, c, i);
      var sum := PairSlice(words, c, slice, Matrix(file)[i]);
      dots[i] := sum;
    }
    assert dots[..] == target;
    response := ReduceAll(dots);
  }

  /** `VerificationClient::audit`: rejects on a length mismatch, otherwise compares the two
      accumulators.  No sum overflows, whatever 64-bit entries it is given. */
  method Audit(config: ClientConfig, challenge: seq<U64>, response: seq<U64>) returns (ok: bool)
    requires Indexable(config, challenge, response)
    ensures ok == Accepts(config, challenge, response)
  {
    var rxr: U128, sxc: U128 := 0, 0;
    if |response| != config.cols {
      return false;
    }
    if |challenge| != config.rows {
      return false;
    }
    var m, n := config.secretM[..config.cols], config.secretN[..config.rows];
    for i := 0 to config.cols
      invariant rxr <= P57 && rxr == Fold(response[..i], m[..i])
    {
      assert response[..i + 1][..i] == response[..i] && m[..i + 1][..i] == m[..i];
      rxr := rxr + Product(response[i], m[i]);
      if rxr > P57 {
        rxr := rxr % P57;
      }
    }
    for i := 0 to config.rows
      invariant sxc <= P57 && sxc == Fold(challenge[..i], n[..i])
    {
      assert challenge[..i + 1][..i] == challenge[..i] && n[..i + 1][..i] == n[..i];
      sxc := sxc + Product(challenge[i], n[i]);
      if sxc > P57 {
        sxc := sxc % P57;
      }
    }
    assert response[..config.cols] == response && challenge[..config.rows] == challenge;
    assert m[..config.cols] == m && n[..config.rows] == n;
    ok := rxr == sxc;
  }
}
