/** Machine words and little-endian byte strings.

    Bytes are bit-vectors.  The entries of the protocol's vectors are unsigned 64-bit
    integers, represented as bounded integers so that sums over them can be reasoned
    about; bit-vectors of width 64 occur only where the program shifts and masks.
  */
module Words {

  datatype Option<+T> = None | Some(value: T)

  type U64 = x: int | 0 <= x < 0x1_0000_0000_0000_0000

  type U128 = x: int | 0 <= x < 0x1_0000_0000_0000_0000_0000_0000_0000_0000

  const U128_MAX: int := 0xFFFF_FFFF_FFFF_FFFF_FFFF_FFFF_FFFF_FFFF

  type I64 = x: int | -0x8000_0000_0000_0000 <= x < 0x8000_0000_0000_0000

  /** Two's-complement wrap-around to 64 bits. */
  function WrapI64(x: int): (r: I64)
    ensures (x - r) % 0x1_0000_0000_0000_0000 == 0
  {
    (x + 0x8000_0000_0000_0000) % 0x1_0000_0000_0000_0000 - 0x8000_0000_0000_0000
  }

  function Negated(x: int): (r: I64)
    ensures (x + r) % 0x1_0000_0000_0000_0000 == 0
  {
    WrapI64(-x)
  }

  /** `i64 as usize` on a 64-bit target. */
  function ToUsize(x: I64): (r: U64)
    ensures (x - r) % 0x1_0000_0000_0000_0000 == 0
  {
    if x < 0 then x + 0x1_0000_0000_0000_0000 else x
  }

  // ----- little-endian values -----

  function Pow256(n: nat): (r: nat)
    ensures r >= 1
  {
    if n == 0 then 1 else 256 * Pow256(n - 1)
  }

  function LeValue(bs: seq<bv8>): nat {
    if bs == [] then 0 else bs[0] as nat + 256 * LeValue(bs[1..])
  }

  function LeBytes(x: nat, n: nat): (r: seq<bv8>)
    ensures |r| == n
  {
    if n == 0 then [] else [(x % 256) as bv8] + LeBytes(x / 256, n - 1)
  }

  lemma {:induction false} LeValueBound(bs: seq<bv8>)
    ensures LeValue(bs) < Pow256(|bs|)
  {
    if bs != [] {
      LeValueBound(bs[1..]);
      assert bs[0] as nat < 256;
    }
  }

  lemma {:induction false} ValueOfBytes(x: nat, n: nat)
    requires x < Pow256(n)
    ensures LeValue(LeBytes(x, n)) == x
  {
    if n > 0 {
      ValueOfBytes(x / 256, n - 1);
      assert LeBytes(x, n)[1..] == LeBytes(x / 256, n - 1);
      ByteRoundTrip(x % 256);
    }
  }

  lemma {:induction false} BytesOfValue(bs: seq<bv8>)
    ensures LeBytes(LeValue(bs), |bs|) == bs
  {
    if bs != [] {
      BytesOfValue(bs[1..]);
      SplitLow(bs[0], LeValue(bs[1..]));
      assert bs == [bs[0]] + bs[1..];
    }
  }

  lemma SplitLow(b: bv8, rest: nat)
    ensures (b as nat + 256 * rest) / 256 == rest
    ensures ((b as nat + 256 * rest) % 256) as bv8 == b
  {
    assert b as nat < 256;
    assert (b as nat + 256 * rest) % 256 == b as nat;
  }

  lemma ByteRoundTrip(x: nat)
    requires x < 256
    ensures (x as bv8) as nat == x
  {
    var b := ByteOf(x);
    SplitLow(b, 0);
  }

  /** Every value below 256 is a byte's. */
  lemma {:induction false} ByteOf(x: nat) returns (b: bv8)
    requires x < 256
    ensures b as nat == x
  {
    if x == 0 {
      b := 0;
    } else {
      var c := ByteOf(x - 1);
      NextByte(c);
      b := c + 1;
    }
  }

  lemma NextByte(b: bv8)
    requires b as nat < 255
    ensures (b + 1) as nat == b as nat + 1
  {
  }

  // ----- vectors of 64-bit words as byte strings -----

  /** `u64_to_bytes`: the eight little-endian bytes of each entry, concatenated. */
  function U64ToBytes(xs: seq<U64>): (r: seq<bv8>)
    ensures |r| == 8 * |xs|
  {
    if xs == [] then [] else LeBytes(xs[0], 8) + U64ToBytes(xs[1..])
  }

  /** `bytes_to_u64`: `chunks_exact(8)` ignores a trailing partial word. */
  function BytesToU64(bs: seq<bv8>): (r: seq<U64>)
    ensures |r| == |bs| / 8
  {
    if |bs| < 8 then [] else
      EightBytesFit(bs[..8]);
      [LeValue(bs[..8])] + BytesToU64(bs[8..])
  }

  lemma EightBytesFit(bs: seq<bv8>)
    requires |bs| == 8
    ensures LeValue(bs) < 0x1_0000_0000_0000_0000
  {
    LeValueBound(bs);
    PowersOf256();
  }

  lemma PowersOf256()
    ensures Pow256(7) == 0x100_0000_0000_0000
    ensures Pow256(8) == 0x1_0000_0000_0000_0000
  {
    assert Pow256(4) == 0x1_0000_0000;
  }

  /** Decoding inverts encoding, whatever partial word follows. */
  lemma {:induction false} DecodeEncode(xs: seq<U64>, tail: seq<bv8>)
    requires |tail| < 8
    ensures BytesToU64(U64ToBytes(xs) + tail) == xs
  {
    if xs == [] {
      assert U64ToBytes(xs) + tail == tail;
    } else {
      var bs := U64ToBytes(xs) + tail;
      PowersOf256();
      ValueOfBytes(xs[0], 8);
      assert bs[..8] == LeBytes(xs[0], 8);
      assert bs[8..] == U64ToBytes(xs[1..]) + tail;
      DecodeEncode(xs[1..], tail);
    }
  }

  /** Encoding a decoded string gives back every whole word and drops only the rest. */
  lemma {:induction false} EncodeDecode(bs: seq<bv8>)
    ensures U64ToBytes(BytesToU64(bs)) == bs[..|bs| / 8 * 8]
  {
    if |bs| >= 8 {
      var xs := BytesToU64(bs);
      EncodeDecode(bs[8..]);
      BytesOfValue(bs[..8]);
      assert xs[1..] == BytesToU64(bs[8..]);
      assert bs[..|bs| / 8 * 8] == bs[..8] + bs[8..][..|bs[8..]| / 8 * 8];
    }
  }

  // ----- unpacking seven 64-bit words into eight 56-bit chunks -----

  const CHUNK_MASK: bv64 := (1 << 56) - 1

  /** `u64::from_le_bytes` */
  function Word(bs: seq<bv8>): bv64
    requires |bs| == 8
  {
    (bs[0] as bv64) | (bs[1] as bv64 << 8) | (bs[2] as bv64 << 16) | (bs[3] as bv64 << 24)
    | (bs[4] as bv64 << 32) | (bs[5] as bv64 << 40) | (bs[6] as bv64 << 48) | (bs[7] as bv64 << 56)
  }

  /** A byte string read as 64-bit words (`chunks_exact(8)` and `from_le_bytes`). */
  function WordsOf(bs: seq<bv8>): (r: seq<bv64>)
    requires |bs| % 8 == 0
    ensures |r| == |bs| / 8
    ensures forall w :: 0 <= w < |r| ==> r[w] == Word(bs[8 * w..8 * w + 8])
  {
    seq(|bs| / 8, w requires 0 <= w < |bs| / 8 => Word(bs[8 * w..8 * w + 8]))
  }

  /** The shift-or of two neighbouring words, `(lo >> (64 - k * 8)) | ((hi << (k * 8)) & mask)`,
      written out for each k the loop visits. */
  function ShiftOr(lo: bv64, hi: bv64, k: nat): bv64
    requires 1 <= k <= 6
  {
    match k
    case 1 => (lo >> 56) | ((hi << 8) & CHUNK_MASK)
    case 2 => (lo >> 48) | ((hi << 16) & CHUNK_MASK)
    case 3 => (lo >> 40) | ((hi << 24) & CHUNK_MASK)
    case 4 => (lo >> 32) | ((hi << 32) & CHUNK_MASK)
    case 5 => (lo >> 24) | ((hi << 40) & CHUNK_MASK)
    case 6 => (lo >> 16) | ((hi << 48) & CHUNK_MASK)
  }

  /** Seven bytes as the low 56 bits of a word. */
  function Pack(s: seq<bv8>): bv64
    requires |s| == 7
  {
    (s[0] as bv64) | (s[1] as bv64 << 8) | (s[2] as bv64 << 16) | (s[3] as bv64 << 24)
    | (s[4] as bv64 << 32) | (s[5] as bv64 << 40) | (s[6] as bv64 << 48)
  }

  lemma PackAsSum(b0: bv8, b1: bv8, b2: bv8, b3: bv8, b4: bv8, b5: bv8, b6: bv8)
    ensures ((b0 as bv64) | (b1 as bv64 << 8) | (b2 as bv64 << 16) | (b3 as bv64 << 24)
             | (b4 as bv64 << 32) | (b5 as bv64 << 40) | (b6 as bv64 << 48)) as nat
         == b0 as nat + 0x100 * (b1 as nat) + 0x1_0000 * (b2 as nat) + 0x100_0000 * (b3 as nat)
            + 0x1_0000_0000 * (b4 as nat) + 0x100_0000_0000 * (b5 as nat) + 0x1_0000_0000_0000 * (b6 as nat)
  {
  }

  lemma LeValueOfOne(s: seq<bv8>, i: nat)
    requires i < |s|
    ensures LeValue(s[i..]) == s[i] as nat + 256 * LeValue(s[i + 1..])
  {
    assert s[i..][1..] == s[i + 1..];
  }

  lemma LeValueOfSeven(s: seq<bv8>)
    requires |s| == 7
    ensures LeValue(s)
         == s[0] as nat + 0x100 * (s[1] as nat) + 0x1_0000 * (s[2] as nat) + 0x100_0000 * (s[3] as nat)
            + 0x1_0000_0000 * (s[4] as nat) + 0x100_0000_0000 * (s[5] as nat) + 0x1_0000_0000_0000 * (s[6] as nat)
  {
    var v := seq(7, i requires 0 <= i < 7 => s[i] as nat);
    forall i: nat | i < 7 ensures LeValue(s[i..]) == v[i] + 256 * LeValue(s[i + 1..]) {
      LeValueOfOne(s, i);
    }
    HornerOfSeven(v, seq(8, i requires 0 <= i < 8 => LeValue(s[i..])));
    assert s[0..] == s;
  }

  lemma HornerOfSeven(v: seq<nat>, h: seq<nat>)
    requires |v| == 7 && |h| == 8 && h[7] == 0
    requires forall i :: 0 <= i < 7 ==> h[i] == v[i] + 256 * h[i + 1]
    ensures h[0] == v[0] + 0x100 * v[1] + 0x1_0000 * v[2] + 0x100_0000 * v[3]
                    + 0x1_0000_0000 * v[4] + 0x100_0000_0000 * v[5] + 0x1_0000_0000_0000 * v[6]
  {
    assert h[6] == v[6] + 256 * h[7];
    assert h[5] == v[5] + 256 * h[6];
    assert h[4] == v[4] + 256 * h[5];
  }

  lemma PackIsLeValue(s: seq<bv8>)
    requires |s| == 7
    ensures Pack(s) as nat == LeValue(s)
  {
    PackAsSum(s[0], s[1], s[2], s[3], s[4], s[5], s[6]);
    LeValueOfSeven(s);
  }

  lemma ShiftOr1(l: seq<bv8>, h: seq<bv8>)
    requires |l| == |h| == 8
    ensures ShiftOr(Word(l), Word(h), 1) == Pack([l[7], h[0], h[1], h[2], h[3], h[4], h[5]])
  {
  }

  lemma ShiftOr2(l: seq<bv8>, h: seq<bv8>)
    requires |l| == |h| == 8
    ensures ShiftOr(Word(l), Word(h), 2) == Pack([l[6], l[7], h[0], h[1], h[2], h[3], h[4]])
  {
  }

  lemma ShiftOr3(l: seq<bv8>, h: seq<bv8>)
    requires |l| == |h| == 8
    ensures ShiftOr(Word(l), Word(h), 3) == Pack([l[5], l[6], l[7], h[0], h[1], h[2], h[3]])
  {
  }

  lemma ShiftOr4(l: seq<bv8>, h: seq<bv8>)
    requires |l| == |h| == 8
    ensures ShiftOr(Word(l), Word(h), 4) == Pack([l[4], l[5], l[6], l[7], h[0], h[1], h[2]])
  {
  }

  lemma ShiftOr5(l: seq<bv8>, h: seq<bv8>)
    requires |l| == |h| == 8
    ensures ShiftOr(Word(l), Word(h), 5) == Pack([l[3], l[4], l[5], l[6], l[7], h[0], h[1]])
  {
  }

  lemma ShiftOr6(l: seq<bv8>, h: seq<bv8>)
    requires |l| == |h| == 8
    ensures ShiftOr(Word(l), Word(h), 6) == Pack([l[2], l[3], l[4], l[5], l[6], l[7], h[0]])
  {
  }

  lemma ShiftOrAcrossWords(lo: seq<bv8>, hi: seq<bv8>, k: nat)
    requires |lo| == |hi| == 8 && 1 <= k <= 6
    ensures ShiftOr(Word(lo), Word(hi), k) == Pack((lo + hi)[8 - k..15 - k])
  {
    var s := (lo + hi)[8 - k..15 - k];
    assert s == [s[0], s[1], s[2], s[3], s[4], s[5], s[6]];
    match k
    case 1 => ShiftOr1(lo, hi);
    case 2 => ShiftOr2(lo, hi);
    case 3 => ShiftOr3(lo, hi);
    case 4 => ShiftOr4(lo, hi);
    case 5 => ShiftOr5(lo, hi);
    case 6 => ShiftOr6(lo, hi);
  }

  lemma MaskOfWord(w: seq<bv8>)
    requires |w| == 8
    ensures Word(w) & CHUNK_MASK == Pack(w[..7])
  {
  }

  lemma ShiftOfWord(w: seq<bv8>)
    requires |w| == 8
    ensures Word(w) >> 8 == Pack(w[1..])
  {
  }

  lemma WordAt(bs: seq<bv8>, w: nat)
    requires |bs| % 8 == 0 && 8 * w + 8 <= |bs|
    ensures w < |WordsOf(bs)| && WordsOf(bs)[w] == Word(bs[8 * w..8 * w + 8])
  {
  }

  lemma NeighbourSlices<T>(bs: seq<T>, at: nat, k: nat)
    requires 1 <= k <= 6 && 8 * at + 56 <= |bs|
    ensures (bs[8 * (at + k - 1)..8 * (at + k - 1) + 8] + bs[8 * (at + k)..8 * (at + k) + 8])[8 - k..15 - k]
         == bs[8 * at + 7 * k..8 * at + 7 * k + 7]
  {
  }

  /** The first chunk of a block: a masked word. */
  method MaskedWord(w: bv64, ghost bs: seq<bv8>) returns (v: nat)
    requires |bs| == 8 && w == Word(bs)
    ensures v == LeValue(bs[..7])
  {
    v := (w & CHUNK_MASK) as nat;
    MaskOfWord(bs);
    PackIsLeValue(bs[..7]);
  }

  /** A middle chunk: the shift-or of two neighbouring words. */
  method CombinedWords(lo: bv64, hi: bv64, k: nat, ghost bl: seq<bv8>, ghost bh: seq<bv8>) returns (v: nat)
    requires 1 <= k <= 6 && |bl| == |bh| == 8 && lo == Word(bl) && hi == Word(bh)
    ensures v == LeValue((bl + bh)[8 - k..15 - k])
  {
    var chunk := ShiftOr(lo, hi, k);
    ShiftOrAcrossWords(bl, bh, k);
    PackIsLeValue((bl + bh)[8 - k..15 - k]);
    v := chunk as nat;
  }

  /** The last chunk of a block: a shifted word. */
  method ShiftedWord(w: bv64, ghost bs: seq<bv8>) returns (v: nat)
    requires |bs| == 8 && w == Word(bs)
    ensures v == LeValue(bs[1..])
  {
    v := (w >> 8) as nat;
    ShiftOfWord(bs);
    PackIsLeValue(bs[1..]);
  }

  /** Chunk k of the seven words that start at word `at`: the mask, shift-or and shift cases
      together read exactly the eight consecutive 7-byte groups of the block. */
  method UnpackChunk(ws: seq<bv64>, at: nat, k: nat, ghost bs: seq<bv8>) returns (v: nat)
    requires |bs| % 8 == 0 && ws == WordsOf(bs)
    requires k < 8 && at + 7 <= |ws|
    ensures v == LeValue(bs[8 * at + 7 * k..8 * at + 7 * k + 7])
  {
    if k == 0 {
      WordAt(bs, at);
      v := MaskedWord(ws[at], bs[8 * at..8 * at + 8]);
      assert bs[8 * at..8 * at + 8][..7] == bs[8 * at..8 * at + 7];
    } else if k == 7 {
      WordAt(bs, at + 6);
      v := ShiftedWord(ws[at + 6], bs[8 * (at + 6)..8 * (at + 6) + 8]);
      assert bs[8 * (at + 6)..8 * (at + 6) + 8][1..] == bs[8 * at + 49..8 * at + 56];
    } else {
      WordAt(bs, at + k - 1);
      WordAt(bs, at + k);
      NeighbourSlices(bs, at, k);
      v := CombinedWords(ws[at + k - 1], ws[at + k], k,
                         bs[8 * (at + k - 1)..8 * (at + k - 1) + 8], bs[8 * (at + k)..8 * (at + k) + 8]);
    }
  }
}
