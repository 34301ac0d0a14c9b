/**
 * How the content script's md5 (src/content.js:203-368) relates to RFC 1321.
 *
 * When coreMD5 is given the bit length of the bytes it hashes, the word array
 * it hashes is exactly the padded message of RFC 1321 sections 3.1-3.2 read
 * as little-endian words, so its result is the RFC digest. md5 itself passes
 * the length of the string before encoding; the two agree on ASCII text
 * without CR LF, and the last lemmas of this module show an input where they
 * do not.
 */
module ContentMd5Rfc {
  import Rfc = Rfc1321
  import opened ContentMd5

  /** The low byte of unit i, and 0 past the end. */
  function LowByte(e: seq<Unit>, i: nat): Rfc.Byte
  {
    if i < |e| then (e[i] & 0xFF) as Rfc.Byte else 0
  }

  /** The bytes convertToWordArray reads from a string: the low byte of each
      code unit. */
  function Bytes(e: seq<Unit>): (m: seq<Rfc.Byte>)
    ensures |m| == |e| && forall i :: 0 <= i < |e| ==> m[i] == LowByte(e, i)
  {
    seq(|e|, i requires 0 <= i < |e| => LowByte(e, i))
  }

  lemma CodeByteIsLow(e: seq<Unit>, i: nat)
    ensures CodeByte(e, i) == LowByte(e, i) as Word
  {
    if i < |e| {
      MaskedUnit(e[i]);
    }
  }

  lemma MaskedUnit(u: Unit)
    ensures (u & 0xFF) as Word == ((u & 0xFF) as Rfc.Byte) as Word
  {
  }

  /** Word k of the packed array is the little-endian word of bytes 4k .. 4k+3,
      zero past the end. */
  lemma PackedWord(e: seq<Unit>, k: nat)
    ensures At(Packed(e), k) == Rfc.WordOf(LowByte(e, 4 * k), LowByte(e, 4 * k + 1), LowByte(e, 4 * k + 2), LowByte(e, 4 * k + 3))
  {
    CodeByteIsLow(e, 4 * k);
    CodeByteIsLow(e, 4 * k + 1);
    CodeByteIsLow(e, 4 * k + 2);
    CodeByteIsLow(e, 4 * k + 3);
    if k < |Packed(e)| {
      assert At(Packed(e), k) == PackAt(e, 4 * k);
    } else {
      assert Rfc.WordOf(0, 0, 0, 0) == 0;
    }
  }

  // ---------------------------------------------------------------------
  // Where the two writes of coreMD5 land for a bit length 8 * n.
  // ---------------------------------------------------------------------

  /** n = 4a + r bytes and n + 8 = 64q + z. For n < 2^28 the bit length
      8 * n is below 2^31, so `len >> 5` is the word a holding byte n,
      the marker is 0x80 in byte r of that word, and the length goes to word
      16q + 14, the next-to-last word of block q. */
  lemma Layout(n: nat)
    requires n < 0x1000_0000
    ensures MarkerIndex(8 * n) == n / 4
    ensures 8 * n % 32 == 8 * (n % 4)
    ensures LengthIndex(8 * n) == 16 * Rfc.BlockCount(n) - 2
    ensures 4 * (n / 4) + 3 < 64 * Rfc.BlockCount(n) - 8
    ensures n / 4 + 1 <= LengthIndex(8 * n)
    ensures (n + 3) / 4 <= n / 4 + 1
  {
    var a, r := n / 4, n % 4;
    var q, z := (n + 8) / 64, (n + 8) % 64;
    assert n == 4 * a + r && n + 8 == 64 * q + z;
    assert Int32(8 * n) == 8 * n;
    assert 8 * n == 32 * a + 8 * r;
    assert (8 * n + 64) % 0x1_0000_0000 == 8 * n + 64 == 512 * q + 8 * z;
    assert (8 * n + 64) % 0x1_0000_0000 / 512 == q;
  }

  lemma MarkerShift(n: nat)
    ensures n % 4 == 0 ==> Marker(8 * n) == 0x80
    ensures n % 4 == 1 ==> Marker(8 * n) == 0x8000
    ensures n % 4 == 2 ==> Marker(8 * n) == 0x80_0000
    ensures n % 4 == 3 ==> Marker(8 * n) == 0x8000_0000
  {
    var r := n % 4;
    assert (8 * n) % 32 == 8 * r;
    if r == 0 {
      assert Marker(8 * n) == (0x80 as Word) << 0;
    } else if r == 1 {
      assert Marker(8 * n) == (0x80 as Word) << 8;
    } else if r == 2 {
      assert Marker(8 * n) == (0x80 as Word) << 16;
    } else {
      assert Marker(8 * n) == (0x80 as Word) << 24;
    }
  }

  /** The marked array has a word for every word of the padded message but its
      last, so the loop processes BlockCount(n) blocks. */
  lemma {:induction false} BlockCountAgrees(e: seq<Unit>)
    requires |e| < 0x1000_0000
    ensures |Marked(Packed(e), 8 * |e|)| == 16 * Rfc.BlockCount(|e|) - 1
    ensures |Blocks(Marked(Packed(e), 8 * |e|))| == 16 * Rfc.BlockCount(|e|)
  {
    var n := |e|;
    var b := Rfc.BlockCount(n);
    var w := Marked(Packed(e), 8 * n);
    assert |w| == 16 * b - 1 by {
      Layout(n);
      var x := Packed(e);
      var x1 := Store(x, n / 4, At(x, n / 4) | Marker(8 * n));
      assert |x1| <= n / 4 + 1;
      assert w == Store(x1, LengthIndex(8 * n), ((8 * n) % 0x1_0000_0000) as Word);
    }
    BlocksOfLength(w, b);
  }

  /** A word array one short of b blocks is read as exactly b blocks. */
  lemma BlocksOfLength(w: seq<Word>, b: nat)
    requires b >= 1 && |w| == 16 * b - 1
    ensures |Blocks(w)| == 16 * b
  {
    var t := |Blocks(w)| / 16;
    assert |Blocks(w)| == 16 * t;
  }

  /** What the marked array holds at each index. */
  lemma MarkedAt(e: seq<Unit>, k: nat)
    requires |e| < 0x1000_0000
    ensures var n := |e|; var x := Packed(e);
      At(Marked(x, 8 * n), k) ==
        if k == LengthIndex(8 * n) then ((8 * n) % 0x1_0000_0000) as Word
        else if k == n / 4 then At(x, k) | Marker(8 * n)
        else At(x, k)
  {
    Layout(|e|);
  }

  // ---------------------------------------------------------------------
  // The padded message, byte by byte.
  // ---------------------------------------------------------------------

  /** Before the length, every byte of the padded message other than the
      marker is the message byte, and zero past the message. */
  lemma PadByteOf(e: seq<Unit>, i: nat)
    requires i < 64 * Rfc.BlockCount(|e|) - 8 && i != |e|
    ensures Rfc.PadByte(Bytes(e), i) == LowByte(e, i)
  {
  }

  lemma PadLengthWords(e: seq<Unit>)
    requires |e| < 0x1000_0000
    ensures var last := 64 * Rfc.BlockCount(|e|) - 8;
      var lo := ((8 * |e|) % 0x1_0000_0000) as Word;
      && Rfc.PadByte(Bytes(e), last) == Rfc.WordBytes(lo)[0]
      && Rfc.PadByte(Bytes(e), last + 1) == Rfc.WordBytes(lo)[1]
      && Rfc.PadByte(Bytes(e), last + 2) == Rfc.WordBytes(lo)[2]
      && Rfc.PadByte(Bytes(e), last + 3) == Rfc.WordBytes(lo)[3]
      && Rfc.PadByte(Bytes(e), last + 4) == 0
      && Rfc.PadByte(Bytes(e), last + 5) == 0
      && Rfc.PadByte(Bytes(e), last + 6) == 0
      && Rfc.PadByte(Bytes(e), last + 7) == 0
  {
    var n := |e|;
    assert (8 * n) % 0x1_0000_0000_0000_0000 == 8 * n;
    assert (8 * n) / 0x1_0000_0000 == 0;
    Rfc.LengthBytesAre(n, (8 * n) % 0x1_0000_0000, 0);
    assert Rfc.WordBytes(0 as Word) == [0, 0, 0, 0];
  }

  /** The marker word: the bytes below r are data, byte r is 0x80. */
  lemma OrMarker0()
    ensures Rfc.WordOf(0, 0, 0, 0) | 0x80 == Rfc.WordOf(0x80, 0, 0, 0)
  {
  }

  lemma OrMarker1(b0: Rfc.Byte)
    ensures Rfc.WordOf(b0, 0, 0, 0) | 0x8000 == Rfc.WordOf(b0, 0x80, 0, 0)
  {
  }

  lemma OrMarker2(b0: Rfc.Byte, b1: Rfc.Byte)
    ensures Rfc.WordOf(b0, b1, 0, 0) | 0x80_0000 == Rfc.WordOf(b0, b1, 0x80, 0)
  {
  }

  lemma OrMarker3(b0: Rfc.Byte, b1: Rfc.Byte, b2: Rfc.Byte)
    ensures Rfc.WordOf(b0, b1, b2, 0) | 0x8000_0000 == Rfc.WordOf(b0, b1, b2, 0x80)
  {
  }

  // ---------------------------------------------------------------------
  // The word array is the padded message.
  // ---------------------------------------------------------------------

  /** Word k of the blocks coreMD5 hashes, with bit length 8 * |e|, is word k
      of the padded message of the low bytes of e. */
  lemma WordsAgree(e: seq<Unit>, k: nat)
    requires |e| < 0x1000_0000 && k < 16 * Rfc.BlockCount(|e|)
    ensures At(Marked(Packed(e), 8 * |e|), k) == Rfc.PaddedWords(Bytes(e))[k]
  {
    var n := |e|;
    Layout(n);
    var L := LengthIndex(8 * n);
    if k == L || k == L + 1 {
      LengthWordsAgree(e, k);
    } else if k == n / 4 {
      MarkerWordAgrees(e);
    } else {
      DataWordAgrees(e, k);
    }
  }

  /** The last two words of the final block hold the bit length. */
  lemma LengthWordsAgree(e: seq<Unit>, k: nat)
    requires |e| < 0x1000_0000
    requires k == LengthIndex(8 * |e|) || k == LengthIndex(8 * |e|) + 1
    ensures k < 16 * Rfc.BlockCount(|e|)
    ensures At(Marked(Packed(e), 8 * |e|), k) == Rfc.PaddedWords(Bytes(e))[k]
  {
    var n := |e|;
    Layout(n);
    MarkedAt(e, k);
    Rfc.PaddedWordAt(Bytes(e), k);
    var L := LengthIndex(8 * n);
    assert 4 * L == 64 * Rfc.BlockCount(n) - 8;
    PadLengthWords(e);
    if k == L {
      Rfc.WordOfBytes(((8 * n) % 0x1_0000_0000) as Word);
    } else {
      BlockCountAgrees(e);
    }
  }

  /** The word holding the first padding byte. */
  lemma MarkerWordAgrees(e: seq<Unit>)
    requires |e| < 0x1000_0000
    ensures |e| / 4 < 16 * Rfc.BlockCount(|e|)
    ensures At(Marked(Packed(e), 8 * |e|), |e| / 4) == Rfc.PaddedWords(Bytes(e))[|e| / 4]
  {
    if |e| % 4 == 0 {
      MarkerWord0(e);
    } else if |e| % 4 == 1 {
      MarkerWord1(e);
    } else if |e| % 4 == 2 {
      MarkerWord2(e);
    } else {
      MarkerWord3(e);
    }
  }

  /** The marker word when |e| % 4 == 0. */
  lemma MarkerWord0(e: seq<Unit>)
    requires |e| < 0x1000_0000 && |e| % 4 == 0
    ensures |e| / 4 < 16 * Rfc.BlockCount(|e|)
    ensures At(Marked(Packed(e), 8 * |e|), |e| / 4) == Rfc.PaddedWords(Bytes(e))[|e| / 4]
  {
    var n := |e|;
    var k := n / 4;
    var i := 4 * k;
    assert n == i + 0;
    Layout(n);
    MarkedAt(e, k);
    Rfc.PaddedWordAt(Bytes(e), k);
    PackedWord(e, k);
    MarkerShift(n);
    assert Marker(8 * n) == 0x80;
    assert LowByte(e, i) == 0;
    assert LowByte(e, i + 1) == 0;
    assert LowByte(e, i + 2) == 0;
    assert LowByte(e, i + 3) == 0;
    assert Rfc.PadByte(Bytes(e), i) == 0x80;
    PadByteOf(e, i + 1);
    PadByteOf(e, i + 2);
    PadByteOf(e, i + 3);
    OrMarker0();
  }

  /** The marker word when |e| % 4 == 1. */
  lemma MarkerWord1(e: seq<Unit>)
    requires |e| < 0x1000_0000 && |e| % 4 == 1
    ensures |e| / 4 < 16 * Rfc.BlockCount(|e|)
    ensures At(Marked(Packed(e), 8 * |e|), |e| / 4) == Rfc.PaddedWords(Bytes(e))[|e| / 4]
  {
    var n := |e|;
    var k := n / 4;
    var i := 4 * k;
    assert n == i + 1;
    Layout(n);
    MarkedAt(e, k);
    Rfc.PaddedWordAt(Bytes(e), k);
    PackedWord(e, k);
    MarkerShift(n);
    assert Marker(8 * n) == 0x8000;
    assert LowByte(e, i + 1) == 0;
    assert LowByte(e, i + 2) == 0;
    assert LowByte(e, i + 3) == 0;
    assert Rfc.PadByte(Bytes(e), i + 1) == 0x80;
    PadByteOf(e, i);
    PadByteOf(e, i + 2);
    PadByteOf(e, i + 3);
    OrMarker1(LowByte(e, i));
  }

  /** The marker word when |e| % 4 == 2. */
  lemma MarkerWord2(e: seq<Unit>)
    requires |e| < 0x1000_0000 && |e| % 4 == 2
    ensures |e| / 4 < 16 * Rfc.BlockCount(|e|)
    ensures At(Marked(Packed(e), 8 * |e|), |e| / 4) == Rfc.PaddedWords(Bytes(e))[|e| / 4]
  {
    var n := |e|;
    var k := n / 4;
    var i := 4 * k;
    assert n == i + 2;
    Layout(n);
    MarkedAt(e, k);
    Rfc.PaddedWordAt(Bytes(e), k);
    PackedWord(e, k);
    MarkerShift(n);
    assert Marker(8 * n) == 0x80_0000;
    assert LowByte(e, i + 2) == 0;
    assert LowByte(e, i + 3) == 0;
    assert Rfc.PadByte(Bytes(e), i + 2) == 0x80;
    PadByteOf(e, i);
    PadByteOf(e, i + 1);
    PadByteOf(e, i + 3);
    OrMarker2(LowByte(e, i), LowByte(e, i + 1));
  }

  /** The marker word when |e| % 4 == 3. */
  lemma MarkerWord3(e: seq<Unit>)
    requires |e| < 0x1000_0000 && |e| % 4 == 3
    ensures |e| / 4 < 16 * Rfc.BlockCount(|e|)
    ensures At(Marked(Packed(e), 8 * |e|), |e| / 4) == Rfc.PaddedWords(Bytes(e))[|e| / 4]
  {
    var n := |e|;
    var k := n / 4;
    var i := 4 * k;
    assert n == i + 3;
    Layout(n);
    MarkedAt(e, k);
    Rfc.PaddedWordAt(Bytes(e), k);
    PackedWord(e, k);
    MarkerShift(n);
    assert Marker(8 * n) == 0x8000_0000;
    assert LowByte(e, i + 3) == 0;
    assert Rfc.PadByte(Bytes(e), i + 3) == 0x80;
    PadByteOf(e, i);
    PadByteOf(e, i + 1);
    PadByteOf(e, i + 2);
    OrMarker3(LowByte(e, i), LowByte(e, i + 1), LowByte(e, i + 2));
  }

  /** Every other word is four bytes of the message, or zero. */
  lemma DataWordAgrees(e: seq<Unit>, k: nat)
    requires |e| < 0x1000_0000 && k < LengthIndex(8 * |e|) && k != |e| / 4
    ensures k < 16 * Rfc.BlockCount(|e|)
    ensures At(Marked(Packed(e), 8 * |e|), k) == Rfc.PaddedWords(Bytes(e))[k]
  {
    var n := |e|;
    Layout(n);
    MarkedAt(e, k);
    Rfc.PaddedWordAt(Bytes(e), k);
    PackedWord(e, k);
    assert 4 * k + 3 < 64 * Rfc.BlockCount(n) - 8;
    PadByteOf(e, 4 * k);
    PadByteOf(e, 4 * k + 1);
    PadByteOf(e, 4 * k + 2);
    PadByteOf(e, 4 * k + 3);
  }

  lemma {:induction false} BlocksArePadded(e: seq<Unit>)
    requires |e| < 0x1000_0000
    ensures Blocks(Marked(Packed(e), 8 * |e|)) == Rfc.PaddedWords(Bytes(e))
  {
    var B := Blocks(Marked(Packed(e), 8 * |e|));
    var P := Rfc.PaddedWords(Bytes(e));
    BlockCountAgrees(e);
    forall k | 0 <= k < |B|
      ensures B[k] == P[k]
    {
      WordsAgree(e, k);
    }
  }

  /** coreMD5 given the bit length of its bytes computes the RFC 1321 buffer
      of those bytes. */
  lemma {:induction false} CoreIsRfc(e: seq<Unit>)
    requires |e| < 0x1000_0000
    ensures Core(Packed(e), |e| * 8) == Rfc.HashBlocks(Rfc.Init, Rfc.PaddedWords(Bytes(e)))
  {
    var len := |e| * 8;
    assert len == 8 * |e|;
    BlocksArePadded(e);
    var B := Blocks(Marked(Packed(e), len));
    assert B == Rfc.PaddedWords(Bytes(e));
    HashFromBlocks(Rfc.Init, Marked(Packed(e), len), 0);
    assert B[0..] == B;
  }

  /** With the encoded length, md5 is the RFC 1321 digest of the encoded
      bytes. */
  lemma {:induction false} Md5EncodedIsRfc(s: seq<Unit>)
    requires |Encoded(s)| < 0x1000_0000
    ensures Md5Encoded(s) == Rfc.Md5Hex(Bytes(Encoded(s)))
  {
    CoreIsRfc(Encoded(s));
  }

  /** md5 as written is the RFC 1321 digest of ASCII text without CR LF. */
  lemma {:induction false} AsciiMd5IsRfc(s: seq<Unit>)
    requires IsAscii(s) && !HasCrlf(s) && |s| < 0x1000_0000
    ensures Md5AsWritten(s) == Rfc.Md5Hex(Bytes(s))
  {
    AsciiEncoded(s);
    CoreIsRfc(s);
  }

  /** The bytes read from the encoding are the encoding itself: every unit of
      it is below 0x100. */
  lemma EncodedBytesExact(s: seq<Unit>)
    ensures forall i :: 0 <= i < |Encoded(s)| ==> Bytes(Encoded(s))[i] as Unit == Encoded(s)[i]
  {
    Utf8Bytes(ReplaceCrlf(s));
    forall i | 0 <= i < |Encoded(s)|
      ensures Bytes(Encoded(s))[i] as Unit == Encoded(s)[i]
    {
      LowByteExact(Encoded(s)[i]);
    }
  }

  lemma LowByteExact(u: Unit)
    requires u <= 0xFF
    ensures ((u & 0xFF) as Rfc.Byte) as Unit == u
  {
  }
}
