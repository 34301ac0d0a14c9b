/**
 * A reference definition of the MD5 message digest as RFC 1321 describes it:
 * padding (section 3.1), length appendix (section 3.2), the initial buffer
 * (section 3.3), the four rounds of sixteen operations per block
 * (section 3.4) and the output (section 3.5). It is written as plainly as the
 * RFC text states it, byte by byte and round by round, so that the
 * repository's implementations can be compared with it.
 */
module Rfc1321 {

  type Byte = bv8
  type Word = bv32

  // ---------------------------------------------------------------------
  // Section 3.1 and section 3.2: padding and the 64-bit length.
  // ---------------------------------------------------------------------

  /** The number of 64-byte blocks of a padded n-byte message. */
  function BlockCount(n: nat): nat
  {
    (n + 8) / 64 + 1
  }

  /** The number of zero bytes that follow the 0x80 byte: just enough that the
      padded length is 8 bytes short of a multiple of 64. */
  function ZeroCount(n: nat): (z: nat)
    ensures z < 64
  {
    63 - (n + 8) % 64
  }

  /** A number below 2^32 as a word. */
  function AsWord(v: int): Word
    requires 0 <= v < 0x1_0000_0000
  {
    v as Word
  }

  /** The bit length of an n-byte message, reduced to its low 64 bits
      (section 3.2), appended as two words, the low-order word first. */
  function LengthBytes(n: nat): (r: seq<Byte>)
    ensures |r| == 8
  {
    var bits := (8 * n) % 0x1_0000_0000_0000_0000;
    WordBytes(AsWord(bits % 0x1_0000_0000)) + WordBytes(AsWord(bits / 0x1_0000_0000))
  }

  /** The two length words, named by their values. */
  lemma LengthBytesAre(n: nat, lo: int, hi: int)
    requires lo == (8 * n) % 0x1_0000_0000_0000_0000 % 0x1_0000_0000
    requires hi == (8 * n) % 0x1_0000_0000_0000_0000 / 0x1_0000_0000
    ensures LengthBytes(n) == WordBytes(lo as Word) + WordBytes(hi as Word)
  {
    assert AsWord(lo) == lo as Word && AsWord(hi) == hi as Word;
  }

  function Zeros(z: nat): (r: seq<Byte>)
    ensures |r| == z && forall i :: 0 <= i < z ==> r[i] == 0
  {
    seq(z, _ => 0)
  }

  /** The message followed by the single 1 bit (the byte 0x80), zero bytes,
      and the 64-bit length; a whole number of 64-byte blocks. */
  function Pad(m: seq<Byte>): (p: seq<Byte>)
    ensures |p| == |m| + 1 + ZeroCount(|m|) + 8
    ensures |p| == 64 * BlockCount(|m|)
  {
    m + [0x80] + Zeros(ZeroCount(|m|)) + LengthBytes(|m|)
  }

  /** Section 3.1: at least one and at most 512 bits are appended, and the
      message then has a length congruent to 448 modulo 512 bits. */
  lemma PadCongruent(n: nat)
    ensures 1 <= 1 + ZeroCount(n) <= 64
    ensures (n + 1 + ZeroCount(n)) % 64 == 56
  {
    var q := (n + 8) / 64;
    assert n + 1 + ZeroCount(n) == 64 * q + 56;
  }

  /** Byte i of the padded message: the message, then 0x80, then zeros, and
      the length in the last eight bytes. */
  function PadByte(m: seq<Byte>, i: nat): Byte
    requires i < 64 * BlockCount(|m|)
  {
    var last := 64 * BlockCount(|m|) - 8;
    if i < |m| then m[i]
    else if i == |m| then 0x80
    else if i < last then 0
    else LengthBytes(|m|)[i - last]
  }

  lemma PadAt(m: seq<Byte>, i: nat)
    requires i < |Pad(m)|
    ensures Pad(m)[i] == PadByte(m, i)
  {
    var z := ZeroCount(|m|);
    var lb := LengthBytes(|m|);
    var head := m + [0x80] + Zeros(z);
    assert Pad(m) == head + lb;
    if i < |head| {
      assert Pad(m)[i] == head[i];
    } else {
      assert Pad(m)[i] == lb[i - |head|];
    }
  }

  // ---------------------------------------------------------------------
  // Little-endian words (section 2 and section 3.4: "a sequence of words").
  // ---------------------------------------------------------------------

  /** Four bytes as one word, the first byte in the low-order position. */
  function WordOf(b0: Byte, b1: Byte, b2: Byte, b3: Byte): Word
  {
    (b0 as Word) | ((b1 as Word) << 8) | ((b2 as Word) << 16) | ((b3 as Word) << 24)
  }

  /** The word at index k of a byte sequence whose length is a multiple of 4. */
  function WordAt(p: seq<Byte>, k: nat): Word
    requires 4 * k + 3 < |p|
  {
    WordOf(p[4 * k], p[4 * k + 1], p[4 * k + 2], p[4 * k + 3])
  }

  function Words(p: seq<Byte>): (w: seq<Word>)
    requires |p| % 4 == 0
    ensures 4 * |w| == |p|
    ensures forall k :: 0 <= k < |w| ==> 4 * k + 3 < |p| && w[k] == WordAt(p, k)
  {
    seq(|p| / 4, k requires 0 <= k < |p| / 4 => WordAt(p, k))
  }

  /** The four bytes of a word, low-order byte first. */
  function WordBytes(w: Word): (r: seq<Byte>)
    ensures |r| == 4
  {
    [(w & 0xFF) as Byte, ((w >> 8) & 0xFF) as Byte,
     ((w >> 16) & 0xFF) as Byte, ((w >> 24) & 0xFF) as Byte]
  }

  /** WordBytes is the inverse of WordOf. */
  lemma WordBytesOf(b0: Byte, b1: Byte, b2: Byte, b3: Byte)
    ensures WordBytes(WordOf(b0, b1, b2, b3)) == [b0, b1, b2, b3]
  {
  }

  lemma WordOfBytes(w: Word)
    ensures WordOf(WordBytes(w)[0], WordBytes(w)[1], WordBytes(w)[2], WordBytes(w)[3]) == w
  {
  }

  // ---------------------------------------------------------------------
  // Section 3.3: the MD buffer.
  // ---------------------------------------------------------------------

  datatype Regs = Regs(a: Word, b: Word, c: Word, d: Word)

  /** word A: 01 23 45 67, word B: 89 ab cd ef, word C: fe dc ba 98,
      word D: 76 54 32 10 (low-order bytes first). */
  const Init: Regs := Regs(0x67452301, 0xefcdab89, 0x98badcfe, 0x10325476)

  // ---------------------------------------------------------------------
  // Section 3.4: processing a 16-word block.
  // ---------------------------------------------------------------------

  /** Addition of words, modulo 2^32 (section 2): the `+` of bv32. */
  function Add(x: Word, y: Word): Word
  {
    x + y
  }

  /** The grouping of a four-word sum does not change it. */
  lemma SumRegrouped(a: Word, f: Word, x: Word, t: Word)
    ensures (a + f) + (x + t) == ((a + f) + x) + t
  {
  }

  lemma AddCommutative(x: Word, y: Word)
    ensures Add(x, y) == Add(y, x)
  {
  }

  /** X <<< s, the circular left shift, written as the reference code's
      ROTATE_LEFT: the word shifted left by s, or-ed with the bits shifted
      out at the top. */
  function Rotl(x: Word, s: Word): Word
    requires 0 < s < 32
  {
    (x << s) | (x >> (32 - s))
  }

  /** Rotating by s and then by 32 - s gives back the word. */
  lemma RotlInverse(x: Word, s: Word)
    requires 0 < s < 32
    ensures Rotl(Rotl(x, s), 32 - s) == x
  {
  }

  function F(x: Word, y: Word, z: Word): Word { (x & y) | (!x & z) }
  function G(x: Word, y: Word, z: Word): Word { (x & z) | (y & !z) }
  function H(x: Word, y: Word, z: Word): Word { x ^ y ^ z }
  function I(x: Word, y: Word, z: Word): Word { y ^ (x | !z) }

  datatype Round = Round1 | Round2 | Round3 | Round4

  function Mix(r: Round, x: Word, y: Word, z: Word): Word
  {
    match r
    case Round1 => F(x, y, z)
    case Round2 => G(x, y, z)
    case Round3 => H(x, y, z)
    case Round4 => I(x, y, z)
  }

  type Index = k: nat | k < 16
  type Shift = s: Word | 0 < s < 32 witness 1

  /** The operation [abcd k s i] of a round: X[k] is the word of the block it
      adds, s the amount it rotates by, and t = T[i], the integer part of
      4294967296 * abs(sin(i)). */
  datatype Operation = Operation(k: Index, s: Shift, t: Word)

  /** a = b + ((a + f + x + t) <<< s), with the sum grouped as
      (a + f) + (x + t); by SumRegrouped any other grouping gives the same
      word. */
  function Op(f: Word, a: Word, b: Word, x: Word, s: Word, t: Word): Word
    requires 0 < s < 32
  {
    Add(b, Rotl(Add(Add(a, f), Add(x, t)), s))
  }

  /** a = b + ((a + f(b,c,d) + X[k] + T[i]) <<< s). The result lists the registers in the
      order the next operation names them ([dabc ...]). */
  function Apply(r: Round, st: Regs, X: seq<Word>, o: Operation): Regs
    requires |X| == 16
  {
    Regs(st.d, Op(Mix(r, st.b, st.c, st.d), st.a, st.b, X[o.k], o.s, o.t), st.b, st.c)
  }

  /** Operations j, j + 1, ... of a round in order. */
  function Run(r: Round, st: Regs, X: seq<Word>, ops: seq<Operation>, j: nat): Regs
    requires |X| == 16 && j <= |ops|
    decreases |ops| - j
  {
    if j == |ops| then st else Run(r, Apply(r, st, X, ops[j]), X, ops, j + 1)
  }

  const Round1Ops: seq<Operation> :=
    [Operation( 0,  7, 0xd76aa478), Operation( 1, 12, 0xe8c7b756), Operation( 2, 17, 0x242070db), Operation( 3, 22, 0xc1bdceee)] +
    [Operation( 4,  7, 0xf57c0faf), Operation( 5, 12, 0x4787c62a), Operation( 6, 17, 0xa8304613), Operation( 7, 22, 0xfd469501)] +
    [Operation( 8,  7, 0x698098d8), Operation( 9, 12, 0x8b44f7af), Operation(10, 17, 0xffff5bb1), Operation(11, 22, 0x895cd7be)] +
    [Operation(12,  7, 0x6b901122), Operation(13, 12, 0xfd987193), Operation(14, 17, 0xa679438e), Operation(15, 22, 0x49b40821)]

  const Round2Ops: seq<Operation> :=
    [Operation( 1,  5, 0xf61e2562), Operation( 6,  9, 0xc040b340), Operation(11, 14, 0x265e5a51), Operation( 0, 20, 0xe9b6c7aa)] +
    [Operation( 5,  5, 0xd62f105d), Operation(10,  9, 0x02441453), Operation(15, 14, 0xd8a1e681), Operation( 4, 20, 0xe7d3fbc8)] +
    [Operation( 9,  5, 0x21e1cde6), Operation(14,  9, 0xc33707d6), Operation( 3, 14, 0xf4d50d87), Operation( 8, 20, 0x455a14ed)] +
    [Operation(13,  5, 0xa9e3e905), Operation( 2,  9, 0xfcefa3f8), Operation( 7, 14, 0x676f02d9), Operation(12, 20, 0x8d2a4c8a)]

  const Round3Ops: seq<Operation> :=
    [Operation( 5,  4, 0xfffa3942), Operation( 8, 11, 0x8771f681), Operation(11, 16, 0x6d9d6122), Operation(14, 23, 0xfde5380c)] +
    [Operation( 1,  4, 0xa4beea44), Operation( 4, 11, 0x4bdecfa9), Operation( 7, 16, 0xf6bb4b60), Operation(10, 23, 0xbebfbc70)] +
    [Operation(13,  4, 0x289b7ec6), Operation( 0, 11, 0xeaa127fa), Operation( 3, 16, 0xd4ef3085), Operation( 6, 23, 0x04881d05)] +
    [Operation( 9,  4, 0xd9d4d039), Operation(12, 11, 0xe6db99e5), Operation(15, 16, 0x1fa27cf8), Operation( 2, 23, 0xc4ac5665)]

  const Round4Ops: seq<Operation> :=
    [Operation( 0,  6, 0xf4292244), Operation( 7, 10, 0x432aff97), Operation(14, 15, 0xab9423a7), Operation( 5, 21, 0xfc93a039)] +
    [Operation(12,  6, 0x655b59c3), Operation( 3, 10, 0x8f0ccc92), Operation(10, 15, 0xffeff47d), Operation( 1, 21, 0x85845dd1)] +
    [Operation( 8,  6, 0x6fa87e4f), Operation(15, 10, 0xfe2ce6e0), Operation( 6, 15, 0xa3014314), Operation(13, 21, 0x4e0811a1)] +
    [Operation( 4,  6, 0xf7537e82), Operation(11, 10, 0xbd3af235), Operation( 2, 15, 0x2ad7d2bb), Operation( 9, 21, 0xeb86d391)]

  /** The four rounds on one block, then each register incremented by the
      value it had before the block was started. */
  function Compress(st: Regs, X: seq<Word>): Regs
    requires |X| == 16
  {
    var r1 := Run(Round1, st, X, Round1Ops, 0);
    var r2 := Run(Round2, r1, X, Round2Ops, 0);
    var r3 := Run(Round3, r2, X, Round3Ops, 0);
    var r := Run(Round4, r3, X, Round4Ops, 0);
    Regs(Add(r.a, st.a), Add(r.b, st.b), Add(r.c, st.c), Add(r.d, st.d))
  }
  /** Every 16-word block of the message, in order. */
  function HashBlocks(st: Regs, M: seq<Word>): Regs
    requires |M| % 16 == 0
    decreases |M|
  {
    if |M| == 0 then st else HashBlocks(Compress(st, M[..16]), M[16..])
  }

  /** Processing a message one block further. */
  lemma {:induction false} HashBlocksSnoc(st: Regs, M: seq<Word>, X: seq<Word>)
    requires |M| % 16 == 0 && |X| == 16
    ensures HashBlocks(st, M + X) == Compress(HashBlocks(st, M), X)
    decreases |M|
  {
    if |M| == 0 {
      assert (M + X)[..16] == X && (M + X)[16..] == [];
    } else {
      assert (M + X)[..16] == M[..16];
      assert (M + X)[16..] == M[16..] + X;
      HashBlocksSnoc(Compress(st, M[..16]), M[16..], X);
    }
  }

  // ---------------------------------------------------------------------
  // Section 3.5: output, and its usual rendering as lowercase hexadecimal.
  // ---------------------------------------------------------------------

  /** A, B, C, D, each low-order byte first. */
  function RegsBytes(r: Regs): (out: seq<Byte>)
    ensures |out| == 16
  {
    WordBytes(r.a) + WordBytes(r.b) + WordBytes(r.c) + WordBytes(r.d)
  }

  const HexDigits: string := "0123456789abcdef"

  predicate IsLowerHex(s: string)
  {
    forall i :: 0 <= i < |s| ==> s[i] in HexDigits
  }

  function HexByte(b: Byte): (r: string)
    ensures |r| == 2 && IsLowerHex(r)
  {
    [HexDigits[(b >> 4) as int], HexDigits[(b & 0xF) as int]]
  }

  function Hex(bs: seq<Byte>): (r: string)
    ensures |r| == 2 * |bs| && IsLowerHex(r)
  {
    if bs == [] then "" else HexByte(bs[0]) + Hex(bs[1..])
  }

  lemma {:induction false} HexAppend(x: seq<Byte>, y: seq<Byte>)
    ensures Hex(x + y) == Hex(x) + Hex(y)
  {
    if x == [] {
      assert x + y == y;
    } else {
      assert (x + y)[1..] == x[1..] + y;
      HexAppend(x[1..], y);
    }
  }

  /** The hexadecimal rendering of one word's four bytes. */
  lemma HexOfWordBytes(w: Word)
    ensures Hex(WordBytes(w)) == HexByte(WordBytes(w)[0]) + HexByte(WordBytes(w)[1]) + HexByte(WordBytes(w)[2]) + HexByte(WordBytes(w)[3])
  {
    var bs := WordBytes(w);
    assert Hex(bs[3..]) == HexByte(bs[3]) by {
      assert bs[3..][1..] == [];
    }
    assert Hex(bs[2..]) == HexByte(bs[2]) + Hex(bs[3..]) by {
      assert bs[2..][1..] == bs[3..];
    }
    assert Hex(bs[1..]) == HexByte(bs[1]) + Hex(bs[2..]) by {
      assert bs[1..][1..] == bs[2..];
    }
  }

  /** The hexadecimal rendering of the digest, register by register. */
  lemma HexOfRegs(r: Regs)
    ensures Hex(RegsBytes(r)) == Hex(WordBytes(r.a)) + Hex(WordBytes(r.b)) + Hex(WordBytes(r.c)) + Hex(WordBytes(r.d))
  {
    HexAppend(WordBytes(r.a) + WordBytes(r.b) + WordBytes(r.c), WordBytes(r.d));
    HexAppend(WordBytes(r.a) + WordBytes(r.b), WordBytes(r.c));
    HexAppend(WordBytes(r.a), WordBytes(r.b));
  }

  /** The padded message as little-endian words: 16 words per block. */
  function PaddedWords(m: seq<Byte>): (w: seq<Word>)
    ensures |w| == 16 * BlockCount(|m|) && |w| % 16 == 0
  {
    WordsOfBlocks(Pad(m), BlockCount(|m|));
    Words(Pad(m))
  }

  lemma WordsOfBlocks(p: seq<Byte>, k: nat)
    requires |p| == 64 * k
    ensures |p| % 4 == 0 && |Words(p)| == 16 * k && |Words(p)| % 16 == 0
  {
    assert (16 * k) % 16 == 0;
  }

  /** Word k of the padded message, from its four bytes. */
  lemma PaddedWordAt(m: seq<Byte>, k: nat)
    requires k < 16 * BlockCount(|m|)
    ensures PaddedWords(m)[k] == WordOf(PadByte(m, 4 * k), PadByte(m, 4 * k + 1), PadByte(m, 4 * k + 2), PadByte(m, 4 * k + 3))
  {
    PadAt(m, 4 * k);
    PadAt(m, 4 * k + 1);
    PadAt(m, 4 * k + 2);
    PadAt(m, 4 * k + 3);
  }

  /** The 128-bit digest of a byte message. */
  function Digest(m: seq<Byte>): (d: seq<Byte>)
    ensures |d| == 16
  {
    RegsBytes(HashBlocks(Init, PaddedWords(m)))
  }

  /** The digest as 32 lowercase hexadecimal digits. */
  function Md5Hex(m: seq<Byte>): (r: string)
    ensures |r| == 32 && IsLowerHex(r)
  {
    Hex(Digest(m))
  }


  /** One operation further. */
  lemma RunNext(r: Round, st: Regs, X: seq<Word>, ops: seq<Operation>, j: nat)
    requires |X| == 16 && j < |ops|
    ensures Run(r, st, X, ops, j) == Run(r, Apply(r, st, X, ops[j]), X, ops, j + 1)
  {
  }

  /** Line 1 of round 1 in the listing of section 3.4: four operations. */
  lemma Round1Line1(a: Word, b: Word, c: Word, d: Word, X: seq<Word>, a1: Word, d1: Word, c1: Word, b1: Word)
    requires |X| == 16
    requires a1 == Op(Mix(Round1, b, c, d), a, b, X[0], 7, 0xd76aa478)
    requires d1 == Op(Mix(Round1, a1, b, c), d, a1, X[1], 12, 0xe8c7b756)
    requires c1 == Op(Mix(Round1, d1, a1, b), c, d1, X[2], 17, 0x242070db)
    requires b1 == Op(Mix(Round1, c1, d1, a1), b, c1, X[3], 22, 0xc1bdceee)
    ensures Run(Round1, Regs(a, b, c, d), X, Round1Ops, 0) == Run(Round1, Regs(a1, b1, c1, d1), X, Round1Ops, 4)
  {
    RunNext(Round1, Regs(a, b, c, d), X, Round1Ops, 0);
    RunNext(Round1, Regs(d, a1, b, c), X, Round1Ops, 1);
    RunNext(Round1, Regs(c, d1, a1, b), X, Round1Ops, 2);
    RunNext(Round1, Regs(b, c1, d1, a1), X, Round1Ops, 3);
  }

  /** Line 2 of round 1 in the listing of section 3.4: four operations. */
  lemma Round1Line2(a: Word, b: Word, c: Word, d: Word, X: seq<Word>, a1: Word, d1: Word, c1: Word, b1: Word)
    requires |X| == 16
    requires a1 == Op(Mix(Round1, b, c, d), a, b, X[4], 7, 0xf57c0faf)
    requires d1 == Op(Mix(Round1, a1, b, c), d, a1, X[5], 12, 0x4787c62a)
    requires c1 == Op(Mix(Round1, d1, a1, b), c, d1, X[6], 17, 0xa8304613)
    requires b1 == Op(Mix(Round1, c1, d1, a1), b, c1, X[7], 22, 0xfd469501)
    ensures Run(Round1, Regs(a, b, c, d), X, Round1Ops, 4) == Run(Round1, Regs(a1, b1, c1, d1), X, Round1Ops, 8)
  {
    RunNext(Round1, Regs(a, b, c, d), X, Round1Ops, 4);
    RunNext(Round1, Regs(d, a1, b, c), X, Round1Ops, 5);
    RunNext(Round1, Regs(c, d1, a1, b), X, Round1Ops, 6);
    RunNext(Round1, Regs(b, c1, d1, a1), X, Round1Ops, 7);
  }

  /** Line 3 of round 1 in the listing of section 3.4: four operations. */
  lemma Round1Line3(a: Word, b: Word, c: Word, d: Word, X: seq<Word>, a1: Word, d1: Word, c1: Word, b1: Word)
    requires |X| == 16
    requires a1 == Op(Mix(Round1, b, c, d), a, b, X[8], 7, 0x698098d8)
    requires d1 == Op(Mix(Round1, a1, b, c), d, a1, X[9], 12, 0x8b44f7af)
    requires c1 == Op(Mix(Round1, d1, a1, b), c, d1, X[10], 17, 0xffff5bb1)
    requires b1 == Op(Mix(Round1, c1, d1, a1), b, c1, X[11], 22, 0x895cd7be)
    ensures Run(Round1, Regs(a, b, c, d), X, Round1Ops, 8) == Run(Round1, Regs(a1, b1, c1, d1), X, Round1Ops, 12)
  {
    RunNext(Round1, Regs(a, b, c, d), X, Round1Ops, 8);
    RunNext(Round1, Regs(d, a1, b, c), X, Round1Ops, 9);
    RunNext(Round1, Regs(c, d1, a1, b), X, Round1Ops, 10);
    RunNext(Round1, Regs(b, c1, d1, a1), X, Round1Ops, 11);
  }

  /** Line 4 of round 1 in the listing of section 3.4: four operations. */
  lemma Round1Line4(a: Word, b: Word, c: Word, d: Word, X: seq<Word>, a1: Word, d1: Word, c1: Word, b1: Word)
    requires |X| == 16
    requires a1 == Op(Mix(Round1, b, c, d), a, b, X[12], 7, 0x6b901122)
    requires d1 == Op(Mix(Round1, a1, b, c), d, a1, X[13], 12, 0xfd987193)
    requires c1 == Op(Mix(Round1, d1, a1, b), c, d1, X[14], 17, 0xa679438e)
    requires b1 == Op(Mix(Round1, c1, d1, a1), b, c1, X[15], 22, 0x49b40821)
    ensures Run(Round1, Regs(a, b, c, d), X, Round1Ops, 12) == Run(Round1, Regs(a1, b1, c1, d1), X, Round1Ops, 16)
  {
    RunNext(Round1, Regs(a, b, c, d), X, Round1Ops, 12);
    RunNext(Round1, Regs(d, a1, b, c), X, Round1Ops, 13);
    RunNext(Round1, Regs(c, d1, a1, b), X, Round1Ops, 14);
    RunNext(Round1, Regs(b, c1, d1, a1), X, Round1Ops, 15);
  }

  /** Line 1 of round 2 in the listing of section 3.4: four operations. */
  lemma Round2Line1(a: Word, b: Word, c: Word, d: Word, X: seq<Word>, a1: Word, d1: Word, c1: Word, b1: Word)
    requires |X| == 16
    requires a1 == Op(Mix(Round2, b, c, d), a, b, X[1], 5, 0xf61e2562)
    requires d1 == Op(Mix(Round2, a1, b, c), d, a1, X[6], 9, 0xc040b340)
    requires c1 == Op(Mix(Round2, d1, a1, b), c, d1, X[11], 14, 0x265e5a51)
    requires b1 == Op(Mix(Round2, c1, d1, a1), b, c1, X[0], 20, 0xe9b6c7aa)
    ensures Run(Round2, Regs(a, b, c, d), X, Round2Ops, 0) == Run(Round2, Regs(a1, b1, c1, d1), X, Round2Ops, 4)
  {
    RunNext(Round2, Regs(a, b, c, d), X, Round2Ops, 0);
    RunNext(Round2, Regs(d, a1, b, c), X, Round2Ops, 1);
    RunNext(Round2, Regs(c, d1, a1, b), X, Round2Ops, 2);
    RunNext(Round2, Regs(b, c1, d1, a1), X, Round2Ops, 3);
  }

  /** Line 2 of round 2 in the listing of section 3.4: four operations. */
  lemma Round2Line2(a: Word, b: Word, c: Word, d: Word, X: seq<Word>, a1: Word, d1: Word, c1: Word, b1: Word)
    requires |X| == 16
    requires a1 == Op(Mix(Round2, b, c, d), a, b, X[5], 5, 0xd62f105d)
    requires d1 == Op(Mix(Round2, a1, b, c), d, a1, X[10], 9, 0x02441453)
    requires c1 == Op(Mix(Round2, d1, a1, b), c, d1, X[15], 14, 0xd8a1e681)
    requires b1 == Op(Mix(Round2, c1, d1, a1), b, c1, X[4], 20, 0xe7d3fbc8)
    ensures Run(Round2, Regs(a, b, c, d), X, Round2Ops, 4) == Run(Round2, Regs(a1, b1, c1, d1), X, Round2Ops, 8)
  {
    RunNext(Round2, Regs(a, b, c, d), X, Round2Ops, 4);
    RunNext(Round2, Regs(d, a1, b, c), X, Round2Ops, 5);
    RunNext(Round2, Regs(c, d1, a1, b), X, Round2Ops, 6);
    RunNext(Round2, Regs(b, c1, d1, a1), X, Round2Ops, 7);
  }

  /** Line 3 of round 2 in the listing of section 3.4: four operations. */
  lemma Round2Line3(a: Word, b: Word, c: Word, d: Word, X: seq<Word>, a1: Word, d1: Word, c1: Word, b1: Word)
    requires |X| == 16
    requires a1 == Op(Mix(Round2, b, c, d), a, b, X[9], 5, 0x21e1cde6)
    requires d1 == Op(Mix(Round2, a1, b, c), d, a1, X[14], 9, 0xc33707d6)
    requires c1 == Op(Mix(Round2, d1, a1, b), c, d1, X[3], 14, 0xf4d50d87)
    requires b1 == Op(Mix(Round2, c1, d1, a1), b, c1, X[8], 20, 0x455a14ed)
    ensures Run(Round2, Regs(a, b, c, d), X, Round2Ops, 8) == Run(Round2, Regs(a1, b1, c1, d1), X, Round2Ops, 12)
  {
    RunNext(Round2, Regs(a, b, c, d), X, Round2Ops, 8);
    RunNext(Round2, Regs(d, a1, b, c), X, Round2Ops, 9);
    RunNext(Round2, Regs(c, d1, a1, b), X, Round2Ops, 10);
    RunNext(Round2, Regs(b, c1, d1, a1), X, Round2Ops, 11);
  }

  /** Line 4 of round 2 in the listing of section 3.4: four operations. */
  lemma Round2Line4(a: Word, b: Word, c: Word, d: Word, X: seq<Word>, a1: Word, d1: Word, c1: Word, b1: Word)
    requires |X| == 16
    requires a1 == Op(Mix(Round2, b, c, d), a, b, X[13], 5, 0xa9e3e905)
    requires d1 == Op(Mix(Round2, a1, b, c), d, a1, X[2], 9, 0xfcefa3f8)
    requires c1 == Op(Mix(Round2, d1, a1, b), c, d1, X[7], 14, 0x676f02d9)
    requires b1 == Op(Mix(Round2, c1, d1, a1), b, c1, X[12], 20, 0x8d2a4c8a)
    ensures Run(Round2, Regs(a, b, c, d), X, Round2Ops, 12) == Run(Round2, Regs(a1, b1, c1, d1), X, Round2Ops, 16)
  {
    RunNext(Round2, Regs(a, b, c, d), X, Round2Ops, 12);
    RunNext(Round2, Regs(d, a1, b, c), X, Round2Ops, 13);
    RunNext(Round2, Regs(c, d1, a1, b), X, Round2Ops, 14);
    RunNext(Round2, Regs(b, c1, d1, a1), X, Round2Ops, 15);
  }

  /** Line 1 of round 3 in the listing of section 3.4: four operations. */
  lemma Round3Line1(a: Word, b: Word, c: Word, d: Word, X: seq<Word>, a1: Word, d1: Word, c1: Word, b1: Word)
    requires |X| == 16
    requires a1 == Op(Mix(Round3, b, c, d), a, b, X[5], 4, 0xfffa3942)
    requires d1 == Op(Mix(Round3, a1, b, c), d, a1, X[8], 11, 0x8771f681)
    requires c1 == Op(Mix(Round3, d1, a1, b), c, d1, X[11], 16, 0x6d9d6122)
    requires b1 == Op(Mix(Round3, c1, d1, a1), b, c1, X[14], 23, 0xfde5380c)
    ensures Run(Round3, Regs(a, b, c, d), X, Round3Ops, 0) == Run(Round3, Regs(a1, b1, c1, d1), X, Round3Ops, 4)
  {
    RunNext(Round3, Regs(a, b, c, d), X, Round3Ops, 0);
    RunNext(Round3, Regs(d, a1, b, c), X, Round3Ops, 1);
    RunNext(Round3, Regs(c, d1, a1, b), X, Round3Ops, 2);
    RunNext(Round3, Regs(b, c1, d1, a1), X, Round3Ops, 3);
  }

  /** Line 2 of round 3 in the listing of section 3.4: four operations. */
  lemma Round3Line2(a: Word, b: Word, c: Word, d: Word, X: seq<Word>, a1: Word, d1: Word, c1: Word, b1: Word)
    requires |X| == 16
    requires a1 == Op(Mix(Round3, b, c, d), a, b, X[1], 4, 0xa4beea44)
    requires d1 == Op(Mix(Round3, a1, b, c), d, a1, X[4], 11, 0x4bdecfa9)
    requires c1 == Op(Mix(Round3, d1, a1, b), c, d1, X[7], 16, 0xf6bb4b60)
    requires b1 == Op(Mix(Round3, c1, d1, a1), b, c1, X[10], 23, 0xbebfbc70)
    ensures Run(Round3, Regs(a, b, c, d), X, Round3Ops, 4) == Run(Round3, Regs(a1, b1, c1, d1), X, Round3Ops, 8)
  {
    RunNext(Round3, Regs(a, b, c, d), X, Round3Ops, 4);
    RunNext(Round3, Regs(d, a1, b, c), X, Round3Ops, 5);
    RunNext(Round3, Regs(c, d1, a1, b), X, Round3Ops, 6);
    RunNext(Round3, Regs(b, c1, d1, a1), X, Round3Ops, 7);
  }

  /** Line 3 of round 3 in the listing of section 3.4: four operations. */
  lemma Round3Line3(a: Word, b: Word, c: Word, d: Word, X: seq<Word>, a1: Word, d1: Word, c1: Word, b1: Word)
    requires |X| == 16
    requires a1 == Op(Mix(Round3, b, c, d), a, b, X[13], 4, 0x289b7ec6)
    requires d1 == Op(Mix(Round3, a1, b, c), d, a1, X[0], 11, 0xeaa127fa)
    requires c1 == Op(Mix(Round3, d1, a1, b), c, d1, X[3], 16, 0xd4ef3085)
    requires b1 == Op(Mix(Round3, c1, d1, a1), b, c1, X[6], 23, 0x04881d05)
    ensures Run(Round3, Regs(a, b, c, d), X, Round3Ops, 8) == Run(Round3, Regs(a1, b1, c1, d1), X, Round3Ops, 12)
  {
    RunNext(Round3, Regs(a, b, c, d), X, Round3Ops, 8);
    RunNext(Round3, Regs(d, a1, b, c), X, Round3Ops, 9);
    RunNext(Round3, Regs(c, d1, a1, b), X, Round3Ops, 10);
    RunNext(Round3, Regs(b, c1, d1, a1), X, Round3Ops, 11);
  }

  /** Line 4 of round 3 in the listing of section 3.4: four operations. */
  lemma Round3Line4(a: Word, b: Word, c: Word, d: Word, X: seq<Word>, a1: Word, d1: Word, c1: Word, b1: Word)
    requires |X| == 16
    requires a1 == Op(Mix(Round3, b, c, d), a, b, X[9], 4, 0xd9d4d039)
    requires d1 == Op(Mix(Round3, a1, b, c), d, a1, X[12], 11, 0xe6db99e5)
    requires c1 == Op(Mix(Round3, d1, a1, b), c, d1, X[15], 16, 0x1fa27cf8)
    requires b1 == Op(Mix(Round3, c1, d1, a1), b, c1, X[2], 23, 0xc4ac5665)
    ensures Run(Round3, Regs(a, b, c, d), X, Round3Ops, 12) == Run(Round3, Regs(a1, b1, c1, d1), X, Round3Ops, 16)
  {
    RunNext(Round3, Regs(a, b, c, d), X, Round3Ops, 12);
    RunNext(Round3, Regs(d, a1, b, c), X, Round3Ops, 13);
    RunNext(Round3, Regs(c, d1, a1, b), X, Round3Ops, 14);
    RunNext(Round3, Regs(b, c1, d1, a1), X, Round3Ops, 15);
  }

  /** Line 1 of round 4 in the listing of section 3.4: four operations. */
  lemma Round4Line1(a: Word, b: Word, c: Word, d: Word, X: seq<Word>, a1: Word, d1: Word, c1: Word, b1: Word)
    requires |X| == 16
    requires a1 == Op(Mix(Round4, b, c, d), a, b, X[0], 6, 0xf4292244)
    requires d1 == Op(Mix(Round4, a1, b, c), d, a1, X[7], 10, 0x432aff97)
    requires c1 == Op(Mix(Round4, d1, a1, b), c, d1, X[14], 15, 0xab9423a7)
    requires b1 == Op(Mix(Round4, c1, d1, a1), b, c1, X[5], 21, 0xfc93a039)
    ensures Run(Round4, Regs(a, b, c, d), X, Round4Ops, 0) == Run(Round4, Regs(a1, b1, c1, d1), X, Round4Ops, 4)
  {
    RunNext(Round4, Regs(a, b, c, d), X, Round4Ops, 0);
    RunNext(Round4, Regs(d, a1, b, c), X, Round4Ops, 1);
    RunNext(Round4, Regs(c, d1, a1, b), X, Round4Ops, 2);
    RunNext(Round4, Regs(b, c1, d1, a1), X, Round4Ops, 3);
  }

  /** Line 2 of round 4 in the listing of section 3.4: four operations. */
  lemma Round4Line2(a: Word, b: Word, c: Word, d: Word, X: seq<Word>, a1: Word, d1: Word, c1: Word, b1: Word)
    requires |X| == 16
    requires a1 == Op(Mix(Round4, b, c, d), a, b, X[12], 6, 0x655b59c3)
    requires d1 == Op(Mix(Round4, a1, b, c), d, a1, X[3], 10, 0x8f0ccc92)
    requires c1 == Op(Mix(Round4, d1, a1, b), c, d1, X[10], 15, 0xffeff47d)
    requires b1 == Op(Mix(Round4, c1, d1, a1), b, c1, X[1], 21, 0x85845dd1)
    ensures Run(Round4, Regs(a, b, c, d), X, Round4Ops, 4) == Run(Round4, Regs(a1, b1, c1, d1), X, Round4Ops, 8)
  {
    RunNext(Round4, Regs(a, b, c, d), X, Round4Ops, 4);
    RunNext(Round4, Regs(d, a1, b, c), X, Round4Ops, 5);
    RunNext(Round4, Regs(c, d1, a1, b), X, Round4Ops, 6);
    RunNext(Round4, Regs(b, c1, d1, a1), X, Round4Ops, 7);
  }

  /** Line 3 of round 4 in the listing of section 3.4: four operations. */
  lemma Round4Line3(a: Word, b: Word, c: Word, d: Word, X: seq<Word>, a1: Word, d1: Word, c1: Word, b1: Word)
    requires |X| == 16
    requires a1 == Op(Mix(Round4, b, c, d), a, b, X[8], 6, 0x6fa87e4f)
    requires d1 == Op(Mix(Round4, a1, b, c), d, a1, X[15], 10, 0xfe2ce6e0)
    requires c1 == Op(Mix(Round4, d1, a1, b), c, d1, X[6], 15, 0xa3014314)
    requires b1 == Op(Mix(Round4, c1, d1, a1), b, c1, X[13], 21, 0x4e0811a1)
    ensures Run(Round4, Regs(a, b, c, d), X, Round4Ops, 8) == Run(Round4, Regs(a1, b1, c1, d1), X, Round4Ops, 12)
  {
    RunNext(Round4, Regs(a, b, c, d), X, Round4Ops, 8);
    RunNext(Round4, Regs(d, a1, b, c), X, Round4Ops, 9);
    RunNext(Round4, Regs(c, d1, a1, b), X, Round4Ops, 10);
    RunNext(Round4, Regs(b, c1, d1, a1), X, Round4Ops, 11);
  }

  /** Line 4 of round 4 in the listing of section 3.4: four operations. */
  lemma Round4Line4(a: Word, b: Word, c: Word, d: Word, X: seq<Word>, a1: Word, d1: Word, c1: Word, b1: Word)
    requires |X| == 16
    requires a1 == Op(Mix(Round4, b, c, d), a, b, X[4], 6, 0xf7537e82)
    requires d1 == Op(Mix(Round4, a1, b, c), d, a1, X[11], 10, 0xbd3af235)
    requires c1 == Op(Mix(Round4, d1, a1, b), c, d1, X[2], 15, 0x2ad7d2bb)
    requires b1 == Op(Mix(Round4, c1, d1, a1), b, c1, X[9], 21, 0xeb86d391)
    ensures Run(Round4, Regs(a, b, c, d), X, Round4Ops, 12) == Run(Round4, Regs(a1, b1, c1, d1), X, Round4Ops, 16)
  {
    RunNext(Round4, Regs(a, b, c, d), X, Round4Ops, 12);
    RunNext(Round4, Regs(d, a1, b, c), X, Round4Ops, 13);
    RunNext(Round4, Regs(c, d1, a1, b), X, Round4Ops, 14);
    RunNext(Round4, Regs(b, c1, d1, a1), X, Round4Ops, 15);
  }
}
