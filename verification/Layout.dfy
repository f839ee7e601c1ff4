/** A file as a zero-padded matrix of 7-byte chunks: `Cols` slices of `Rows` chunks each. */
module Layout {
  import opened Words
  import opened Linear

  /** The size limit of the record store: 1 GiB. */
  const MAX_FILE_BYTES: nat := 1024 * 1024 * 1024

  const CHUNK_LIMIT: nat := 0x100_0000_0000_0000

  function NumChunks(bytes: nat): (n: nat)
    requires bytes > 0
    ensures 7 * (n - 1) < bytes <= 7 * n
  {
    1 + (bytes - 1) / 7
  }

  /** The least positive multiple of 56 whose square is at least n (see `RowsBounds`). */
  function Rows(n: nat): (rows: nat)
    requires n > 0
    ensures rows > 0
  {
    RowsFrom(n, 56)
  }

  function RowsFrom(n: nat, r: nat): (rows: nat)
    requires r > 0
    ensures rows > 0
    decreases if r * r < n then n - r * r else 0
  {
    if n <= r * r then r
    else
      assert r * r < (r + 56) * (r + 56);
      RowsFrom(n, r + 56)
  }

  lemma {:induction false} RowsFromBounds(n: nat, r: nat)
    requires r >= 56 && r % 56 == 0 && (r - 56) * (r - 56) < n
    ensures RowsFrom(n, r) >= 56 && RowsFrom(n, r) % 56 == 0
    ensures (RowsFrom(n, r) - 56) * (RowsFrom(n, r) - 56) < n <= RowsFrom(n, r) * RowsFrom(n, r)
    decreases if r * r < n then n - r * r else 0
  {
    SquareOrder(r, r + 56);
    if n > r * r {
      RowsFromBounds(n, r + 56);
    }
  }

  lemma RowsBounds(n: nat)
    requires n > 0
    ensures Rows(n) >= 56 && Rows(n) % 56 == 0
    ensures (Rows(n) - 56) * (Rows(n) - 56) < n <= Rows(n) * Rows(n)
  {
    RowsFromBounds(n, 56);
  }

  function Cols(n: nat): (cols: nat)
    requires n > 0
    ensures cols >= 1
  {
    1 + (n - 1) / Rows(n)
  }

  lemma SquareOrder(a: nat, b: nat)
    ensures a < b <==> a * a < b * b
  {
  }

  lemma MultiplesOf56(a: nat, b: nat)
    requires a % 56 == 0 && b % 56 == 0 && a < b
    ensures a <= b - 56
  {
  }

  /** The two bounds determine the row count. */
  lemma RowsUnique(n: nat, r: nat)
    requires n > 0 && r >= 56 && r % 56 == 0 && (r - 56) * (r - 56) < n <= r * r
    ensures r == Rows(n)
  {
    var s := Rows(n);
    RowsBounds(n);
    if r < s {
      MultiplesOf56(r, s);
      SquareOrder(s - 56, r);
    } else if s < r {
      MultiplesOf56(s, r);
      SquareOrder(r - 56, s);
    }
  }

  /** The source computes `ceil(sqrt(n) / 56) * 56`; over the reals this is `Rows`. */
  lemma RowsIsScaledCeiling(n: nat, root: real, q: int)
    requires n > 0 && root >= 0.0 && root * root == n as real
    requires (q - 1) as real < root / 56.0 <= q as real
    ensures 56 * q == Rows(n)
  {
    assert root == root / 56.0 * 56.0;
    assert (56 * (q - 1)) as real < root <= (56 * q) as real;
    assert root != 0.0 || root * root == 0.0;
    assert q >= 1;
    var lo, hi := 56 * (q - 1), 56 * q;
    RealSquares(lo as real, root, hi as real);
    CastSquare(lo);
    CastSquare(hi);
    RowsUnique(n, hi);
  }

  function Square(x: real): real {
    x * x
  }

  lemma RealSquares(l: real, root: real, h: real)
    requires 0.0 <= l < root <= h
    ensures Square(l) < Square(root) <= Square(h)
  {
    hide Square;
    SquareGap(l, root);
    if root < h {
      SquareGap(root, h);
    }
  }

  lemma SquareGap(x: real, y: real)
    requires 0.0 <= x < y
    ensures Square(x) < Square(y)
  {
    PositiveProduct(y - x, y + x);
    assert (y - x) * (y + x) == y * y - x * x;
  }

  lemma PositiveProduct(x: real, y: real)
    requires x > 0.0 && y > 0.0
    ensures x * y > 0.0
  {
  }

  lemma {:induction false} CastSquare(n: nat)
    ensures (n * n) as real == n as real * n as real
  {
    if n > 0 {
      CastSquare(n - 1);
      assert n * n == (n - 1) * (n - 1) + 2 * (n - 1) + 1;
      var x := (n - 1) as real;
      assert (x + 1.0) * (x + 1.0) == x * x + 2.0 * x + 1.0;
      assert n as real == x + 1.0;
    }
  }

  lemma ProductOrder(a: int, b: int, c: nat)
    ensures a >= b ==> a * c >= b * c
  {
  }

  /** Dimensions: the last slice is needed, all chunks fit, and no more slices than rows. */
  lemma Dimensions(n: nat)
    requires n > 0
    ensures Cols(n) >= 1
    ensures (Cols(n) - 1) * Rows(n) < n <= Cols(n) * Rows(n)
    ensures Cols(n) <= Rows(n)
  {
    RowsBounds(n);
    var rows, k := Rows(n), (n - 1) / Rows(n);
    var rem := (n - 1) % rows;
    assert n - 1 == k * rows + rem;
    assert (k + 1) * rows == k * rows + rows;
    ProductOrder(k, rows, rows);
  }

  /** A file within the store's limit has fewer than 2^14 rows. */
  lemma RowsOfStoredFile(bytes: nat)
    requires 0 < bytes <= MAX_FILE_BYTES
    ensures Rows(NumChunks(bytes)) <= 12432
  {
    var n := NumChunks(bytes);
    var r := Rows(n);
    RowsBounds(n);
    assert n <= 153391690;
    if r > 12432 {
      MultiplesOf56(12432, r);
      SquareOrder(12432 - 1, r - 56);
    }
  }

  // ----- chunks -----

  function PaddedByte(file: seq<bv8>, b: nat): bv8 {
    if b < |file| then file[b] else 0
  }

  function ChunkBytes(file: seq<bv8>, c: nat): (r: seq<bv8>)
    ensures |r| == 7
    ensures forall k :: 0 <= k < 7 ==> r[k] == PaddedByte(file, 7 * c + k)
  {
    seq(7, k requires 0 <= k < 7 => PaddedByte(file, 7 * c + k))
  }

  /** The little-endian value of the c-th 7-byte group of the padded file. */
  function ChunkAt(file: seq<bv8>, c: nat): (v: nat)
    ensures v < CHUNK_LIMIT
  {
    LeValueBound(ChunkBytes(file, c));
    PowersOf256();
    LeValue(ChunkBytes(file, c))
  }

  /** The number of the first chunk of slice i. */
  function Base(rows: nat, i: nat): nat {
    i * rows
  }

  function Slice(file: seq<bv8>, rows: nat, i: nat): (r: seq<nat>)
    ensures |r| == rows
    ensures forall j :: 0 <= j < rows ==> r[j] == ChunkAt(file, Base(rows, i) + j) && r[j] < CHUNK_LIMIT
  {
    seq<nat>(rows, j requires 0 <= j < rows => ChunkAt(file, Base(rows, i) + j))
  }

  function MatrixOf(file: seq<bv8>, rows: nat, cols: nat): (m: seq<seq<nat>>)
    ensures |m| == cols && Shape(m, rows)
    ensures forall i :: 0 <= i < cols ==> m[i] == Slice(file, rows, i)
  {
    seq(cols, i requires 0 <= i < cols => Slice(file, rows, i))
  }

  function FileRows(file: seq<bv8>): (rows: nat)
    requires file != []
    ensures rows > 0
  {
    Rows(NumChunks(|file|))
  }

  function FileCols(file: seq<bv8>): (cols: nat)
    requires file != []
    ensures cols >= 1
  {
    Cols(NumChunks(|file|))
  }

  function Matrix(file: seq<bv8>): (m: seq<seq<nat>>)
    requires file != []
    ensures |m| == FileCols(file) && Shape(m, FileRows(file))
  {
    MatrixOf(file, FileRows(file), FileCols(file))
  }

  lemma MatrixEntryBound(file: seq<bv8>, i: nat, j: nat)
    requires file != [] && i < FileCols(file) && j < FileRows(file)
    ensures Matrix(file)[i][j] < CHUNK_LIMIT
  {
  }

  // ----- recovering the file -----

  lemma {:induction false} CellOf(c: nat, rows: nat, cols: nat)
    requires rows > 0 && c < cols * rows
    ensures c / rows < cols && c % rows < rows && c == (c / rows) * rows + c % rows
  {
    ProductOrder(c / rows, cols, rows);
  }

  /** Byte b of the original file, read back from the matrix. */
  function RecoverByte(m: seq<seq<nat>>, rows: nat, b: nat): bv8
    requires Shape(m, rows) && rows > 0 && b < 7 * (|m| * rows)
  {
    CellOf(b / 7, rows, |m|);
    LeBytes(m[b / 7 / rows][b / 7 % rows], 7)[b % 7]
  }

  function Recover(m: seq<seq<nat>>, rows: nat, len: nat): (r: seq<bv8>)
    requires Shape(m, rows) && rows > 0 && len <= 7 * (|m| * rows)
    ensures |r| == len
  {
    seq(len, b requires 0 <= b < len => RecoverByte(m, rows, b))
  }

  lemma MatrixHoldsFile(file: seq<bv8>)
    requires file != []
    ensures |file| <= 7 * (FileCols(file) * FileRows(file))
  {
    Dimensions(NumChunks(|file|));
  }

  lemma ByteOfChunk(file: seq<bv8>, c: nat, k: nat)
    requires k < 7
    ensures LeBytes(ChunkAt(file, c), 7)[k] == PaddedByte(file, 7 * c + k)
  {
    BytesOfValue(ChunkBytes(file, c));
  }

  lemma MatrixCell(file: seq<bv8>, rows: nat, cols: nat, c: nat)
    requires rows > 0 && c < cols * rows
    ensures c / rows < cols && c % rows < rows
    ensures MatrixOf(file, rows, cols)[c / rows][c % rows] == ChunkAt(file, c)
  {
    CellOf(c, rows, cols);
    assert Base(rows, c / rows) + c % rows == c;
  }

  lemma RecoverByteCorrect(file: seq<bv8>, b: nat)
    requires file != [] && b < |file|
    ensures b < 7 * (FileCols(file) * FileRows(file))
    ensures RecoverByte(Matrix(file), FileRows(file), b) == file[b]
  {
    MatrixHoldsFile(file);
    MatrixCell(file, FileRows(file), FileCols(file), b / 7);
    ByteOfChunk(file, b / 7, b % 7);
  }

  /** Every byte lands in exactly one chunk: the file is its matrix together with its length. */
  lemma RecoverCorrect(file: seq<bv8>)
    requires file != []
    ensures |file| <= 7 * (FileCols(file) * FileRows(file))
    ensures Recover(Matrix(file), FileRows(file), |file|) == file
  {
    MatrixHoldsFile(file);
    forall b | 0 <= b < |file|
      ensures Recover(Matrix(file), FileRows(file), |file|)[b] == file[b]
    {
      RecoverByteCorrect(file, b);
    }
  }

  /** Distinct files of one length have distinct matrices. */
  lemma MatrixInjective(f: seq<bv8>, g: seq<bv8>)
    requires f != [] && |f| == |g| && Matrix(f) == Matrix(g)
    ensures f == g
  {
    RecoverCorrect(f);
    RecoverCorrect(g);
  }

  // ----- the padded buffer the loops read -----

  /** The file followed by one slice of zero bytes. */
  function Extended(file: seq<bv8>, rows: nat): (r: seq<bv8>)
    ensures |r| == |file| + 7 * rows
    ensures forall b :: 0 <= b < |r| ==> r[b] == PaddedByte(file, b)
  {
    file + seq(7 * rows, _ => 0)
  }

  lemma SliceOffset(rows: nat, i: nat)
    ensures 7 * rows * i == 7 * Base(rows, i)
    ensures 7 * rows * (i + 1) == 7 * Base(rows, i) + 7 * rows
  {
    assert rows * (i + 1) == i * rows + rows;
  }

  /** Every slice the loops cut lies inside the buffer, and splits into whole words. */
  lemma SliceInBounds(file: seq<bv8>, i: nat)
    requires file != [] && i < FileCols(file)
    ensures 7 * FileRows(file) * (i + 1) <= |file| + 7 * FileRows(file)
    ensures (7 * FileRows(file)) % 8 == 0 && FileRows(file) % 8 == 0
  {
    var rows := FileRows(file);
    Dimensions(NumChunks(|file|));
    ProductOrder(FileCols(file) - 1, i, rows);
    SliceOffset(rows, i);
    RowsBounds(NumChunks(|file|));
    WholeWords(rows);
  }

  lemma WholeWords(rows: nat)
    requires rows % 56 == 0
    ensures (7 * rows) % 8 == 0 && rows % 8 == 0
  {
    var q := rows / 56;
    assert rows == 8 * (7 * q) && 7 * rows == 8 * (49 * q);
  }

  /** The 7-byte group at position j of slice i of the buffer is chunk i * rows + j. */
  lemma GroupIsChunk(file: seq<bv8>, rows: nat, i: nat, j: nat, slice: seq<bv8>)
    requires j < rows && 7 * rows * (i + 1) <= |file| + 7 * rows
    requires 0 <= 7 * rows * i <= 7 * rows * (i + 1)
    requires slice == Extended(file, rows)[7 * rows * i..7 * rows * (i + 1)]
    ensures |slice| == 7 * rows
    ensures LeValue(slice[7 * j..7 * j + 7]) == Slice(file, rows, i)[j]
  {
    SliceOffset(rows, i);
    assert slice[7 * j..7 * j + 7] == ChunkBytes(file, Base(rows, i) + j);
  }
}
