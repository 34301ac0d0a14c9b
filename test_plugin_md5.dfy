/**
 * The second copy of MD5 in test-plugin.js:6-151, with its signing helper and
 * the two tests that use them. Its helpers and its 64 steps are those of
 * src/content.js (the step constants written in hexadecimal instead of signed
 * decimal), so the model reuses ContentMd5's helpers and round methods and
 * proves the constant tables equal. It departs from RFC 1321 in three places:
 * the 0x80 marker is placed big-endian within its word (line 61), the bit
 * length is stored in the last word of the final block (line 62), and the
 * digest is rendered most-significant byte first (line 51). It also skips
 * the per-code-unit byte encoding of src/content.js:325-342: each code unit
 * contributes only its low byte.
 */
module TestPluginMd5 {
  import Rfc = Rfc1321
  import opened ContentMd5
  import ContentMd5Rfc

  // ---------------------------------------------------------------------
  // convertToWordArray (lines 37-45).
  // ---------------------------------------------------------------------

  /** `x[i] |= v`: a missing element reads as undefined, which `|` takes as 0. */
  function OrInto(x: seq<Word>, i: nat, v: Word): seq<Word>
  {
    Store(x, i, At(x, i) | v)
  }

  /** `(string.charCodeAt(i) & 0xFF) << ((wordCount % 4) * 8)`, with
      wordCount == i. */
  function LaneByte(s: seq<Unit>, i: nat): Word
  {
    CodeByte(s, i) << ((i % 4) * 8) as Word
  }

  /** The words and sigBytes of lines 38-44: each code unit's low byte ORed
      into its lane, which packs the units as Packed does, with sigBytes the
      string length. */
  method ConvertToWordArray(text: seq<Unit>) returns (words: seq<Word>, sigBytes: nat)
    ensures words == Packed(text) && sigBytes == |text|
  {
    words := [];
    var wordCount := 0;
    var i := 0;
    while i < |text|
      invariant i <= |text| && wordCount == i
      invariant words == Packed(text[..i])
    {
      PackedPrefix(text, i);
      words := OrInto(words, wordCount / 4, (CodeByte(text, i) << ((wordCount % 4) * 8) as Word));
      wordCount := wordCount + 1;
      i := i + 1;
    }
    assert text[..i] == text;
    sigBytes := wordCount;
  }

  lemma CodeByteKept(s: seq<Unit>, n: nat, j: nat)
    requires j < n <= |s|
    ensures CodeByte(s[..n], j) == CodeByte(s, j)
  {
    assert s[..n][j] == s[j];
  }

  lemma CodeBytePast(s: seq<Unit>, i: nat)
    requires |s| <= i
    ensures CodeByte(s, i) == 0
  {
  }

  /** One iteration of the loop: ORing byte i into lane i % 4 of word i / 4
      packs one unit more. */
  lemma PackedPrefix(s: seq<Unit>, i: nat)
    requires i < |s|
    ensures Packed(s[..i + 1]) == OrInto(Packed(s[..i]), i / 4, LaneByte(s, i))
  {
    var k := i / 4;
    var P, Q := Packed(s[..i]), Packed(s[..i + 1]);
    var R := OrInto(P, k, LaneByte(s, i));
    assert |Q| == k + 1 && |R| == k + 1;
    forall j | 0 <= j < k
      ensures Q[j] == R[j]
    {
      PackedPrefixEarlier(s, i, j);
      assert At(R, j) == At(P, j);
    }
    if i % 4 == 0 {
      PackedPrefixLast0(s, i);
    } else if i % 4 == 1 {
      PackedPrefixLast1(s, i);
    } else if i % 4 == 2 {
      PackedPrefixLast2(s, i);
    } else {
      PackedPrefixLast3(s, i);
    }
  }

  /** The words before the last one do not change. */
  lemma PackedPrefixEarlier(s: seq<Unit>, i: nat, j: nat)
    requires i < |s| && 4 * j + 3 < i
    ensures j < |Packed(s[..i])| && Packed(s[..i + 1])[j] == Packed(s[..i])[j]
  {
    CodeByteKept(s, i, 4 * j);
    CodeByteKept(s, i, 4 * j + 1);
    CodeByteKept(s, i, 4 * j + 2);
    CodeByteKept(s, i, 4 * j + 3);
    CodeByteKept(s, i + 1, 4 * j);
    CodeByteKept(s, i + 1, 4 * j + 1);
    CodeByteKept(s, i + 1, 4 * j + 2);
    CodeByteKept(s, i + 1, 4 * j + 3);
  }

  /** The last word gains byte i in lane i % 4, for each of the four lanes. */
  lemma Lane0(n0: Word, n1: Word, n2: Word, n3: Word, o0: Word, o1: Word, o2: Word, o3: Word, b: Word)
    requires n0 == b && o0 == 0 && n1 == 0 && o1 == 0 && n2 == 0 && o2 == 0 && n3 == 0 && o3 == 0
    ensures n0 | (n1 << 8) | (n2 << 16) | (n3 << 24) == (o0 | (o1 << 8) | (o2 << 16) | (o3 << 24)) | (b << 0)
  {
  }

  lemma Lane1(n0: Word, n1: Word, n2: Word, n3: Word, o0: Word, o1: Word, o2: Word, o3: Word, b: Word)
    requires n0 == o0 && n1 == b && o1 == 0 && n2 == 0 && o2 == 0 && n3 == 0 && o3 == 0
    ensures n0 | (n1 << 8) | (n2 << 16) | (n3 << 24) == (o0 | (o1 << 8) | (o2 << 16) | (o3 << 24)) | (b << 8)
  {
  }

  lemma Lane2(n0: Word, n1: Word, n2: Word, n3: Word, o0: Word, o1: Word, o2: Word, o3: Word, b: Word)
    requires n0 == o0 && n1 == o1 && n2 == b && o2 == 0 && n3 == 0 && o3 == 0
    ensures n0 | (n1 << 8) | (n2 << 16) | (n3 << 24) == (o0 | (o1 << 8) | (o2 << 16) | (o3 << 24)) | (b << 16)
  {
  }

  /** The shift of line 40 for each lane. */
  lemma LaneAmount(i: nat)
    ensures i % 4 == 0 ==> ((i % 4) * 8) as Word == 0
    ensures i % 4 == 1 ==> ((i % 4) * 8) as Word == 8
    ensures i % 4 == 2 ==> ((i % 4) * 8) as Word == 16
    ensures i % 4 == 3 ==> ((i % 4) * 8) as Word == 24
  {
  }

  /** Word k of the packing of s, present whenever s reaches unit 4k. */
  lemma PackedWordAt(s: seq<Unit>, k: nat)
    requires 4 * k < |s|
    ensures k < |Packed(s)|
    ensures Packed(s)[k] == CodeByte(s, 4 * k) | (CodeByte(s, 4 * k + 1) << 8) | (CodeByte(s, 4 * k + 2) << 16) | (CodeByte(s, 4 * k + 3) << 24)
  {
    assert (|s| + 3) / 4 >= (4 * k + 4) / 4 == k + 1;
  }

  lemma PackedPrefixLast0(s: seq<Unit>, i: nat)
    requires i < |s| && i % 4 == 0
    ensures i / 4 < |Packed(s[..i + 1])|
    ensures Packed(s[..i + 1])[i / 4] == At(Packed(s[..i]), i / 4) | LaneByte(s, i)
  {
    var k := i / 4;
    var t, t1 := s[..i], s[..i + 1];
    assert i == 4 * k + 0 && |t| == i && |t1| == i + 1;
    CodeByteKept(s, i + 1, 4 * k + 0);
    CodeBytePast(t, 4 * k + 0);
    CodeBytePast(t, 4 * k + 1);
    CodeBytePast(t, 4 * k + 2);
    CodeBytePast(t, 4 * k + 3);
    CodeBytePast(t1, 4 * k + 1);
    CodeBytePast(t1, 4 * k + 2);
    CodeBytePast(t1, 4 * k + 3);
    assert Packed(t1)[k] == PackAt(t1, 4 * k);
    assert At(Packed(t), k) == 0 | (0 << 8) | (0 << 16) | (0 << 24);
    LaneAmount(i);
    Lane0(CodeByte(t1, 4 * k + 0), CodeByte(t1, 4 * k + 1), CodeByte(t1, 4 * k + 2), CodeByte(t1, 4 * k + 3),
          CodeByte(t, 4 * k + 0), CodeByte(t, 4 * k + 1), CodeByte(t, 4 * k + 2), CodeByte(t, 4 * k + 3), CodeByte(s, i));
  }

  lemma PackedPrefixLast1(s: seq<Unit>, i: nat)
    requires i < |s| && i % 4 == 1
    ensures i / 4 < |Packed(s[..i + 1])|
    ensures Packed(s[..i + 1])[i / 4] == At(Packed(s[..i]), i / 4) | LaneByte(s, i)
  {
    var k := i / 4;
    var t, t1 := s[..i], s[..i + 1];
    assert i == 4 * k + 1 && |t| == i && |t1| == i + 1;
    CodeByteKept(s, i, 4 * k + 0);
    CodeByteKept(s, i + 1, 4 * k + 0);
    CodeByteKept(s, i + 1, 4 * k + 1);
    CodeBytePast(t, 4 * k + 1);
    CodeBytePast(t, 4 * k + 2);
    CodeBytePast(t, 4 * k + 3);
    CodeBytePast(t1, 4 * k + 2);
    CodeBytePast(t1, 4 * k + 3);
    assert Packed(t1)[k] == PackAt(t1, 4 * k);
    assert At(Packed(t), k) == PackAt(t, 4 * k);
    LaneAmount(i);
    Lane1(CodeByte(t1, 4 * k + 0), CodeByte(t1, 4 * k + 1), CodeByte(t1, 4 * k + 2), CodeByte(t1, 4 * k + 3),
          CodeByte(t, 4 * k + 0), CodeByte(t, 4 * k + 1), CodeByte(t, 4 * k + 2), CodeByte(t, 4 * k + 3), CodeByte(s, i));
  }

  lemma PackedPrefixLast2(s: seq<Unit>, i: nat)
    requires i < |s| && i % 4 == 2
    ensures i / 4 < |Packed(s[..i + 1])|
    ensures Packed(s[..i + 1])[i / 4] == At(Packed(s[..i]), i / 4) | LaneByte(s, i)
  {
    var k := i / 4;
    var t, t1 := s[..i], s[..i + 1];
    assert i == 4 * k + 2 && |t| == i && |t1| == i + 1;
    CodeByteKept(s, i, 4 * k + 0);
    CodeByteKept(s, i, 4 * k + 1);
    CodeByteKept(s, i + 1, 4 * k + 0);
    CodeByteKept(s, i + 1, 4 * k + 1);
    CodeByteKept(s, i + 1, 4 * k + 2);
    CodeBytePast(t, 4 * k + 2);
    CodeBytePast(t, 4 * k + 3);
    CodeBytePast(t1, 4 * k + 3);
    assert Packed(t1)[k] == PackAt(t1, 4 * k);
    assert At(Packed(t), k) == PackAt(t, 4 * k);
    LaneAmount(i);
    Lane2(CodeByte(t1, 4 * k + 0), CodeByte(t1, 4 * k + 1), CodeByte(t1, 4 * k + 2), CodeByte(t1, 4 * k + 3),
          CodeByte(t, 4 * k + 0), CodeByte(t, 4 * k + 1), CodeByte(t, 4 * k + 2), CodeByte(t, 4 * k + 3), CodeByte(s, i));
  }

  /** The units a prefix of s keeps when it gains unit 4k + 3. */
  lemma Last3Bytes(s: seq<Unit>, k: nat)
    requires 4 * k + 3 < |s|
    ensures CodeByte(s[..4 * k + 4], 4 * k) == CodeByte(s[..4 * k + 3], 4 * k)
    ensures CodeByte(s[..4 * k + 4], 4 * k + 1) == CodeByte(s[..4 * k + 3], 4 * k + 1)
    ensures CodeByte(s[..4 * k + 4], 4 * k + 2) == CodeByte(s[..4 * k + 3], 4 * k + 2)
    ensures CodeByte(s[..4 * k + 4], 4 * k + 3) == CodeByte(s, 4 * k + 3)
    ensures CodeByte(s[..4 * k + 3], 4 * k + 3) == 0
  {
    CodeByteKept(s, 4 * k + 3, 4 * k);
    CodeByteKept(s, 4 * k + 3, 4 * k + 1);
    CodeByteKept(s, 4 * k + 3, 4 * k + 2);
    CodeByteKept(s, 4 * k + 4, 4 * k);
    CodeByteKept(s, 4 * k + 4, 4 * k + 1);
    CodeByteKept(s, 4 * k + 4, 4 * k + 2);
    CodeByteKept(s, 4 * k + 4, 4 * k + 3);
    CodeBytePast(s[..4 * k + 3], 4 * k + 3);
  }

  /** Lane 3 as plain words: ORing b into the empty top lane. */
  lemma Lane3Or(o0: Word, o1: Word, o2: Word, b: Word)
    ensures o0 | (o1 << 8) | (o2 << 16) | (b << 24) == (o0 | (o1 << 8) | (o2 << 16) | (0 << 24)) | (b << 24)
  {
  }

  lemma LaneByte3(s: seq<Unit>, k: nat)
    ensures LaneByte(s, 4 * k + 3) == CodeByte(s, 4 * k + 3) << 24
  {
    LaneAmount(4 * k + 3);
  }

  lemma PackedPrefixLast3(s: seq<Unit>, i: nat)
    requires i < |s| && i % 4 == 3
    ensures i / 4 < |Packed(s[..i + 1])|
    ensures Packed(s[..i + 1])[i / 4] == At(Packed(s[..i]), i / 4) | LaneByte(s, i)
  {
    var k := i / 4;
    assert i == 4 * k + 3;
    var t, t1 := s[..4 * k + 3], s[..4 * k + 4];
    PackedWordAt(t1, k);
    PackedWordAt(t, k);
    Last3Bytes(s, k);
    LaneByte3(s, k);
    assert Packed(t1)[k] == CodeByte(t1, 4 * k) | (CodeByte(t1, 4 * k + 1) << 8) | (CodeByte(t1, 4 * k + 2) << 16) | (CodeByte(t1, 4 * k + 3) << 24);
    assert At(Packed(t), k) == CodeByte(t, 4 * k) | (CodeByte(t, 4 * k + 1) << 8) | (CodeByte(t, 4 * k + 2) << 16) | (CodeByte(t, 4 * k + 3) << 24);
    assert LaneByte(s, 4 * k + 3) == CodeByte(s, 4 * k + 3) << 24;
    assert CodeByte(t1, 4 * k) == CodeByte(t, 4 * k);
    assert CodeByte(t1, 4 * k + 1) == CodeByte(t, 4 * k + 1);
    assert CodeByte(t1, 4 * k + 2) == CodeByte(t, 4 * k + 2);
    assert CodeByte(t1, 4 * k + 3) == CodeByte(s, 4 * k + 3);
    assert CodeByte(t, 4 * k + 3) == 0;
    Lane3Or(CodeByte(t, 4 * k), CodeByte(t, 4 * k + 1), CodeByte(t, 4 * k + 2), CodeByte(s, 4 * k + 3));
  }

  // ---------------------------------------------------------------------
  // The padding writes (lines 61-62).
  // ---------------------------------------------------------------------

  /** `0x80 << (24 - (sigBytes % 4) * 8)`. */
  function VariantMarker(n: nat): Word
  {
    (0x80 as Word) << (24 - (n % 4) * 8) as Word
  }

  /** `(((sigBytes + 8) >>> 6) + 1) * 16 - 1`, the word that receives the
      bit length. */
  function LengthWord(n: nat): nat
  {
    ((n + 8) / 64 + 1) * 16 - 1
  }

  /** The word array after lines 61-62. The stored length is a number that
      every later read takes modulo 2^32. */
  function VariantMarked(x: seq<Word>, n: nat): seq<Word>
  {
    Store(OrInto(x, n / 4, VariantMarker(n)), LengthWord(n), ((n * 8) % 0x1_0000_0000) as Word)
  }

  /** The registers after the block loop of lines 69-147. */
  function VariantCore(text: seq<Unit>): Rfc.Regs
  {
    HashFrom(Rfc.Init, VariantMarked(Packed(text), |text|), 0)
  }

  // ---------------------------------------------------------------------
  // wordArrayToHex (lines 47-55).
  // ---------------------------------------------------------------------

  const HexChars: string := "0123456789abcdef"

  /** `(w >>> (24 - r * 8)) & 0xff`: lane r of a word, counting from the
      most significant byte. */
  function BigEndianLane(w: Word, r: nat): Rfc.Byte
    requires r < 4
  {
    ((w >> LaneShift(r)) & 0xFF) as Rfc.Byte
  }

  /** `24 - r * 8`, the shift that brings lane r to the low byte. */
  function LaneShift(r: nat): (k: Word)
    requires r < 4
    ensures k as int == 24 - r * 8 && k <= 24
  {
    if r == 0 then 24 else if r == 1 then 16 else if r == 2 then 8 else 0
  }

  /** `(words[i >>> 2] >>> (24 - (i % 4) * 8)) & 0xff`: byte i of the words,
      most-significant byte of each word first. */
  function BigEndianByte(words: seq<Word>, i: nat): Rfc.Byte
  {
    BigEndianLane(At(words, i / 4), i % 4)
  }

  function BigEndianBytes(words: seq<Word>, n: nat): (r: seq<Rfc.Byte>)
    ensures |r| == n && forall i :: 0 <= i < n ==> r[i] == BigEndianByte(words, i)
  {
    seq(n, i requires 0 <= i < n => BigEndianByte(words, i))
  }

  /** What md5 returns: the hex of the 16 big-endian bytes of a, b, c, d. */
  function VariantMd5(text: seq<Unit>): (r: string)
    ensures |r| == 32 && Rfc.IsLowerHex(r)
  {
    Rfc.Hex(BigEndianBytes(RegsWords(VariantCore(text)), 16))
  }

  /** The byte as it is read at line 51, for each of the four lanes. */
  lemma BiteAt(w: Word, r: nat)
    requires r < 4
    ensures (w >> LaneShift(r)) & 0xFF < 0x100
    ensures BigEndianLane(w, r) == Rfc.WordBytes(w)[3 - r]
  {
    if r == 0 {
      assert LaneShift(r) == 24;
    } else if r == 1 {
      assert LaneShift(r) == 16;
    } else if r == 2 {
      assert LaneShift(r) == 8;
    } else {
      assert LaneShift(r) == 0;
    }
  }

  /** The two characters of line 52 are the two hex digits of the byte. */
  lemma BiteDigits(bite: Word)
    requires bite < 0x100
    ensures [HexChars[((bite >> 4) & 0x0F) as int], HexChars[(bite & 0x0F) as int]] == Rfc.HexByte(bite as Rfc.Byte)
  {
    Nibbles(bite as Rfc.Byte, bite as int);
    NibblesOfWord(bite);
  }

  lemma NibblesOfWord(bite: Word)
    requires bite < 0x100
    ensures ((bite >> 4) & 0x0F) as int == bite as int / 16 && (bite & 0x0F) as int == bite as int % 16
  {
  }

  /** The byte read at line 51 and its two digits at line 52. */
  lemma BiteHex(w: Word, r: nat, bite: Word)
    requires r < 4 && bite == (w >> LaneShift(r)) & 0xFF
    ensures bite < 0x100
    ensures [HexChars[((bite >> 4) & 0x0F) as int], HexChars[(bite & 0x0F) as int]] == Rfc.HexByte(BigEndianLane(w, r))
  {
    BiteAt(w, r);
    BiteDigits(bite);
    assert bite as Rfc.Byte == BigEndianLane(w, r);
  }

  /** One byte more of output is two hex digits more. */
  lemma HexSnoc(words: seq<Word>, i: nat)
    ensures Rfc.Hex(BigEndianBytes(words, i + 1)) == Rfc.Hex(BigEndianBytes(words, i)) + Rfc.HexByte(BigEndianByte(words, i))
  {
    assert BigEndianBytes(words, i + 1) == BigEndianBytes(words, i) + [BigEndianByte(words, i)];
    Rfc.HexAppend(BigEndianBytes(words, i), [BigEndianByte(words, i)]);
    HexOne(BigEndianByte(words, i));
  }

  method WordArrayToHex(words: seq<Word>, sigBytes: nat) returns (hex: string)
    ensures hex == Rfc.Hex(BigEndianBytes(words, sigBytes))
  {
    hex := "";
    var i := 0;
    while i < sigBytes
      invariant i <= sigBytes
      invariant hex == Rfc.Hex(BigEndianBytes(words, i))
    {
      var digits := LaneHex(At(words, i / 4), i % 4);
      HexSnoc(words, i);
      hex := hex + digits;
      i := i + 1;
    }
  }

  /** Lines 51-52 for one byte: the lane read from the word and its two
      hex digits. */
  method LaneHex(w: Word, r: nat) returns (digits: string)
    requires r < 4
    ensures digits == Rfc.HexByte(BigEndianLane(w, r))
  {
    var bite := (w >> LaneShift(r)) & 0xFF;
    BiteHex(w, r, bite);
    digits := [HexChars[((bite >> 4) & 0x0F) as int], HexChars[(bite & 0x0F) as int]];
  }

  // ---------------------------------------------------------------------
  // The block loop (lines 64-147). The helpers of lines 7-35 are those of
  // src/content.js:204-232 character for character, so ContentMd5's are used.
  // ---------------------------------------------------------------------

  /** Lines 75-90: round 1, with the step constants in hexadecimal; a
      missing word reads as 0 (`words[i + k] || 0`). */
  method BlockRound1(a0: Word, b0: Word, c0: Word, d0: Word, x: seq<Word>, i: nat) returns (a: Word, b: Word, c: Word, d: Word)
    ensures Rfc.Run(Rfc.Round1, Rfc.Regs(a0, b0, c0, d0), Block(x, i), Rfc.Round1Ops, 0) == Rfc.Regs(a, b, c, d)
  {
    ghost var X := Block(x, i);
    a, b, c, d := a0, b0, c0, d0;
    ghost var a0, b0, c0, d0 := a, b, c, d;
    a := Md5ff(a, b, c, d, At(x, i + 0), 7, 0xD76AA478);
    d := Md5ff(d, a, b, c, At(x, i + 1), 12, 0xE8C7B756);
    c := Md5ff(c, d, a, b, At(x, i + 2), 17, 0x242070DB);
    b := Md5ff(b, c, d, a, At(x, i + 3), 22, 0xC1BDCEEE);
    Rfc.Round1Line1(a0, b0, c0, d0, X, a, d, c, b);
    ghost var a1, b1, c1, d1 := a, b, c, d;
    a := Md5ff(a, b, c, d, At(x, i + 4), 7, 0xF57C0FAF);
    d := Md5ff(d, a, b, c, At(x, i + 5), 12, 0x4787C62A);
    c := Md5ff(c, d, a, b, At(x, i + 6), 17, 0xA8304613);
    b := Md5ff(b, c, d, a, At(x, i + 7), 22, 0xFD469501);
    Rfc.Round1Line2(a1, b1, c1, d1, X, a, d, c, b);
    ghost var a2, b2, c2, d2 := a, b, c, d;
    a := Md5ff(a, b, c, d, At(x, i + 8), 7, 0x698098D8);
    d := Md5ff(d, a, b, c, At(x, i + 9), 12, 0x8B44F7AF);
    c := Md5ff(c, d, a, b, At(x, i + 10), 17, 0xFFFF5BB1);
    b := Md5ff(b, c, d, a, At(x, i + 11), 22, 0x895CD7BE);
    Rfc.Round1Line3(a2, b2, c2, d2, X, a, d, c, b);
    ghost var a3, b3, c3, d3 := a, b, c, d;
    a := Md5ff(a, b, c, d, At(x, i + 12), 7, 0x6B901122);
    d := Md5ff(d, a, b, c, At(x, i + 13), 12, 0xFD987193);
    c := Md5ff(c, d, a, b, At(x, i + 14), 17, 0xA679438E);
    b := Md5ff(b, c, d, a, At(x, i + 15), 22, 0x49B40821);
    Rfc.Round1Line4(a3, b3, c3, d3, X, a, d, c, b);
  }

  /** Lines 92-107: round 2, with the step constants in hexadecimal; a
      missing word reads as 0 (`words[i + k] || 0`). */
  method BlockRound2(a0: Word, b0: Word, c0: Word, d0: Word, x: seq<Word>, i: nat) returns (a: Word, b: Word, c: Word, d: Word)
    ensures Rfc.Run(Rfc.Round2, Rfc.Regs(a0, b0, c0, d0), Block(x, i), Rfc.Round2Ops, 0) == Rfc.Regs(a, b, c, d)
  {
    ghost var X := Block(x, i);
    a, b, c, d := a0, b0, c0, d0;
    ghost var a0, b0, c0, d0 := a, b, c, d;
    a := Md5gg(a, b, c, d, At(x, i + 1), 5, 0xF61E2562);
    d := Md5gg(d, a, b, c, At(x, i + 6), 9, 0xC040B340);
    c := Md5gg(c, d, a, b, At(x, i + 11), 14, 0x265E5A51);
    b := Md5gg(b, c, d, a, At(x, i + 0), 20, 0xE9B6C7AA);
    Rfc.Round2Line1(a0, b0, c0, d0, X, a, d, c, b);
    ghost var a1, b1, c1, d1 := a, b, c, d;
    a := Md5gg(a, b, c, d, At(x, i + 5), 5, 0xD62F105D);
    d := Md5gg(d, a, b, c, At(x, i + 10), 9, 0x02441453);
    c := Md5gg(c, d, a, b, At(x, i + 15), 14, 0xD8A1E681);
    b := Md5gg(b, c, d, a, At(x, i + 4), 20, 0xE7D3FBC8);
    Rfc.Round2Line2(a1, b1, c1, d1, X, a, d, c, b);
    ghost var a2, b2, c2, d2 := a, b, c, d;
    a := Md5gg(a, b, c, d, At(x, i + 9), 5, 0x21E1CDE6);
    d := Md5gg(d, a, b, c, At(x, i + 14), 9, 0xC33707D6);
    c := Md5gg(c, d, a, b, At(x, i + 3), 14, 0xF4D50D87);
    b := Md5gg(b, c, d, a, At(x, i + 8), 20, 0x455A14ED);
    Rfc.Round2Line3(a2, b2, c2, d2, X, a, d, c, b);
    ghost var a3, b3, c3, d3 := a, b, c, d;
    a := Md5gg(a, b, c, d, At(x, i + 13), 5, 0xA9E3E905);
    d := Md5gg(d, a, b, c, At(x, i + 2), 9, 0xFCEFA3F8);
    c := Md5gg(c, d, a, b, At(x, i + 7), 14, 0x676F02D9);
    b := Md5gg(b, c, d, a, At(x, i + 12), 20, 0x8D2A4C8A);
    Rfc.Round2Line4(a3, b3, c3, d3, X, a, d, c, b);
  }

  /** Lines 109-124: round 3, with the step constants in hexadecimal; a
      missing word reads as 0 (`words[i + k] || 0`). */
  method BlockRound3(a0: Word, b0: Word, c0: Word, d0: Word, x: seq<Word>, i: nat) returns (a: Word, b: Word, c: Word, d: Word)
    ensures Rfc.Run(Rfc.Round3, Rfc.Regs(a0, b0, c0, d0), Block(x, i), Rfc.Round3Ops, 0) == Rfc.Regs(a, b, c, d)
  {
    ghost var X := Block(x, i);
    a, b, c, d := a0, b0, c0, d0;
    ghost var a0, b0, c0, d0 := a, b, c, d;
    a := Md5hh(a, b, c, d, At(x, i + 5), 4, 0xFFFA3942);
    d := Md5hh(d, a, b, c, At(x, i + 8), 11, 0x8771F681);
    c := Md5hh(c, d, a, b, At(x, i + 11), 16, 0x6D9D6122);
    b := Md5hh(b, c, d, a, At(x, i + 14), 23, 0xFDE5380C);
    Rfc.Round3Line1(a0, b0, c0, d0, X, a, d, c, b);
    ghost var a1, b1, c1, d1 := a, b, c, d;
    a := Md5hh(a, b, c, d, At(x, i + 1), 4, 0xA4BEEA44);
    d := Md5hh(d, a, b, c, At(x, i + 4), 11, 0x4BDECFA9);
    c := Md5hh(c, d, a, b, At(x, i + 7), 16, 0xF6BB4B60);
    b := Md5hh(b, c, d, a, At(x, i + 10), 23, 0xBEBFBC70);
    Rfc.Round3Line2(a1, b1, c1, d1, X, a, d, c, b);
    ghost var a2, b2, c2, d2 := a, b, c, d;
    a := Md5hh(a, b, c, d, At(x, i + 13), 4, 0x289B7EC6);
    d := Md5hh(d, a, b, c, At(x, i + 0), 11, 0xEAA127FA);
    c := Md5hh(c, d, a, b, At(x, i + 3), 16, 0xD4EF3085);
    b := Md5hh(b, c, d, a, At(x, i + 6), 23, 0x04881D05);
    Rfc.Round3Line3(a2, b2, c2, d2, X, a, d, c, b);
    ghost var a3, b3, c3, d3 := a, b, c, d;
    a := Md5hh(a, b, c, d, At(x, i + 9), 4, 0xD9D4D039);
    d := Md5hh(d, a, b, c, At(x, i + 12), 11, 0xE6DB99E5);
    c := Md5hh(c, d, a, b, At(x, i + 15), 16, 0x1FA27CF8);
    b := Md5hh(b, c, d, a, At(x, i + 2), 23, 0xC4AC5665);
    Rfc.Round3Line4(a3, b3, c3, d3, X, a, d, c, b);
  }

  /** Lines 126-141: round 4, with the step constants in hexadecimal; a
      missing word reads as 0 (`words[i + k] || 0`). */
  method BlockRound4(a0: Word, b0: Word, c0: Word, d0: Word, x: seq<Word>, i: nat) returns (a: Word, b: Word, c: Word, d: Word)
    ensures Rfc.Run(Rfc.Round4, Rfc.Regs(a0, b0, c0, d0), Block(x, i), Rfc.Round4Ops, 0) == Rfc.Regs(a, b, c, d)
  {
    ghost var X := Block(x, i);
    a, b, c, d := a0, b0, c0, d0;
    ghost var a0, b0, c0, d0 := a, b, c, d;
    a := Md5ii(a, b, c, d, At(x, i + 0), 6, 0xF4292244);
    d := Md5ii(d, a, b, c, At(x, i + 7), 10, 0x432AFF97);
    c := Md5ii(c, d, a, b, At(x, i + 14), 15, 0xAB9423A7);
    b := Md5ii(b, c, d, a, At(x, i + 5), 21, 0xFC93A039);
    Rfc.Round4Line1(a0, b0, c0, d0, X, a, d, c, b);
    ghost var a1, b1, c1, d1 := a, b, c, d;
    a := Md5ii(a, b, c, d, At(x, i + 12), 6, 0x655B59C3);
    d := Md5ii(d, a, b, c, At(x, i + 3), 10, 0x8F0CCC92);
    c := Md5ii(c, d, a, b, At(x, i + 10), 15, 0xFFEFF47D);
    b := Md5ii(b, c, d, a, At(x, i + 1), 21, 0x85845DD1);
    Rfc.Round4Line2(a1, b1, c1, d1, X, a, d, c, b);
    ghost var a2, b2, c2, d2 := a, b, c, d;
    a := Md5ii(a, b, c, d, At(x, i + 8), 6, 0x6FA87E4F);
    d := Md5ii(d, a, b, c, At(x, i + 15), 10, 0xFE2CE6E0);
    c := Md5ii(c, d, a, b, At(x, i + 6), 15, 0xA3014314);
    b := Md5ii(b, c, d, a, At(x, i + 13), 21, 0x4E0811A1);
    Rfc.Round4Line3(a2, b2, c2, d2, X, a, d, c, b);
    ghost var a3, b3, c3, d3 := a, b, c, d;
    a := Md5ii(a, b, c, d, At(x, i + 4), 6, 0xF7537E82);
    d := Md5ii(d, a, b, c, At(x, i + 11), 10, 0xBD3AF235);
    c := Md5ii(c, d, a, b, At(x, i + 2), 15, 0x2AD7D2BB);
    b := Md5ii(b, c, d, a, At(x, i + 9), 21, 0xEB86D391);
    Rfc.Round4Line4(a3, b3, c3, d3, X, a, d, c, b);
  }

  /** The body of the block loop: the four rounds, then each register
      incremented by its value before the block (lines 143-146). */
  method HashBlock(a0: Word, b0: Word, c0: Word, d0: Word, words: seq<Word>, i: nat) returns (a: Word, b: Word, c: Word, d: Word)
    ensures Rfc.Regs(a, b, c, d) == Rfc.Compress(Rfc.Regs(a0, b0, c0, d0), Block(words, i))
  {
    var olda, oldb, oldc, oldd := a0, b0, c0, d0;
    a, b, c, d := BlockRound1(a0, b0, c0, d0, words, i);
    a, b, c, d := BlockRound2(a, b, c, d, words, i);
    a, b, c, d := BlockRound3(a, b, c, d, words, i);
    a, b, c, d := BlockRound4(a, b, c, d, words, i);
    a := AddUnsigned(a, olda);
    b := AddUnsigned(b, oldb);
    c := AddUnsigned(c, oldc);
    d := AddUnsigned(d, oldd);
  }

  // ---------------------------------------------------------------------
  // md5 (lines 6-151) and generateSign (lines 154-157).
  // ---------------------------------------------------------------------

  /** md5(string): pack, write the marker and the length in place, hash
      every 16-word block from the RFC 1321 registers, and render a, b, c, d
      with wordArrayToHex. The result has the format line 183 checks. */
  method Md5(text: seq<Unit>) returns (result: string)
    ensures result == VariantMd5(text)
    ensures |result| == 32 && Rfc.IsLowerHex(result)
  {
    var words, sigBytes := ConvertToWordArray(text);
    PaddingWrites(words, sigBytes);
    words := OrInto(words, sigBytes / 4, (0x80 as Word) << (24 - (sigBytes % 4) * 8) as Word);
    words := Store(words, (((sigBytes + 8) / 64) + 1) * 16 - 1, ((sigBytes * 8) % 0x1_0000_0000) as Word);

    var a: Word := 0x67452301;
    var b: Word := 0xEFCDAB89;
    var c: Word := 0x98BADCFE;
    var d: Word := 0x10325476;
    var i := 0;
    while i < |words|
      invariant HashFrom(Rfc.Regs(a, b, c, d), words, i) == HashFrom(Rfc.Init, words, 0)
    {
      a, b, c, d := HashBlock(a, b, c, d, words, i);
      i := i + 16;
    }
    assert Rfc.Regs(a, b, c, d) == VariantCore(text);
    result := WordArrayToHex([a, b, c, d], 16);
  }

  /** Lines 61-62 written out are VariantMarked. */
  lemma PaddingWrites(x: seq<Word>, n: nat)
    ensures Store(OrInto(x, n / 4, (0x80 as Word) << (24 - (n % 4) * 8) as Word),
                  (((n + 8) / 64) + 1) * 16 - 1, ((n * 8) % 0x1_0000_0000) as Word) == VariantMarked(x, n)
  {
  }

  /** The string that is signed: appId, query, salt and appKey in that order,
      whatever the order of the parameters. */
  function SignInput(query: seq<Unit>, appId: seq<Unit>, salt: seq<Unit>, appKey: seq<Unit>): (s: seq<Unit>)
    ensures |s| == |appId| + |query| + |salt| + |appKey|
    ensures s[..|appId|] == appId && s[|appId|..|appId| + |query|] == query
    ensures s[|appId| + |query|..|appId| + |query| + |salt|] == salt
    ensures s[|appId| + |query| + |salt|..] == appKey
  {
    appId + query + salt + appKey
  }

  method GenerateSign(query: seq<Unit>, appId: seq<Unit>, salt: seq<Unit>, appKey: seq<Unit>) returns (sign: string)
    ensures sign == VariantMd5(appId + query + salt + appKey)
    ensures |sign| == 32 && Rfc.IsLowerHex(sign)
  {
    var str := SignInput(query, appId, salt, appKey);
    sign := Md5(str);
  }

  // ---------------------------------------------------------------------
  // Where the variant departs from RFC 1321 and from src/content.js.
  // ---------------------------------------------------------------------

  /** Line 61 against line 41: the marker goes in lane 3 - n % 4 of word n / 4,
      while byte n of the message would go in lane n % 4; the two lanes never
      coincide, so the marker is never the byte 0x80 that RFC 1321 section 3.1
      appends, and it differs from the marker of src/content.js:235. */
  lemma MarkerLane(n: nat)
    ensures 24 - (n % 4) * 8 != (n % 4) * 8
    ensures VariantMarker(n) != (0x80 as Word) << ((n % 4) * 8) as Word
    ensures VariantMarker(n) != Marker(8 * n)
  {
    var r := n % 4;
    assert 8 * n % 32 == 8 * r;
    if r == 0 {
      assert ((n % 4) * 8) as Word == 0 && (24 - (n % 4) * 8) as Word == 24;
    } else if r == 1 {
      assert ((n % 4) * 8) as Word == 8 && (24 - (n % 4) * 8) as Word == 16;
    } else if r == 2 {
      assert ((n % 4) * 8) as Word == 16 && (24 - (n % 4) * 8) as Word == 8;
    } else {
      assert ((n % 4) * 8) as Word == 24 && (24 - (n % 4) * 8) as Word == 0;
    }
  }

  /** Line 62: the bit length goes to the last word of the final block,
      16k - 1 for the k = BlockCount(n) blocks of RFC 1321, one word past the
      word 16k - 2 that src/content.js:236 and section 3.2 use. */
  lemma LengthSlot(n: nat)
    ensures LengthWord(n) == 16 * Rfc.BlockCount(n) - 1
    ensures n < 0x1000_0000 ==> LengthIndex(8 * n) == LengthWord(n) - 1
  {
    if n < 0x1000_0000 {
      ContentMd5Rfc.Layout(n);
    }
  }

  /** Line 51: byte m of register j is emitted at position 4j + 3 - m, the
      reverse of the little-endian order of RFC 1321 section 3.5 and of
      src/content.js:359. */
  lemma BigEndianByteAt(words: seq<Word>, i: nat)
    ensures BigEndianByte(words, i) == Rfc.WordBytes(At(words, i / 4))[3 - i % 4]
  {
    BiteAt(At(words, i / 4), i % 4);
  }

  lemma BigEndianOutput(r: Rfc.Regs, j: nat, m: nat)
    requires j < 4 && m < 4
    ensures BigEndianByte(RegsWords(r), 4 * j + m) == Rfc.RegsBytes(r)[4 * j + (3 - m)]
  {
    var w, k := RegsWords(r), 3 - m;
    BigEndianOutputWords(w, j, m);
    RegsByteAt(r, j, k);
    assert BigEndianByte(w, 4 * j + m) == Rfc.WordBytes(w[j])[k];
    assert Rfc.RegsBytes(r)[4 * j + k] == Rfc.WordBytes(w[j])[k];
  }

  lemma BigEndianOutputWords(w: seq<Word>, j: nat, m: nat)
    requires |w| == 4 && j < 4 && m < 4
    ensures BigEndianByte(w, 4 * j + m) == Rfc.WordBytes(w[j])[3 - m]
  {
    var i := 4 * j + m;
    assert i / 4 == j && i % 4 == m;
    BigEndianByteAt(w, i);
  }

  /** Byte m of register j is byte 4j + m of the RFC 1321 digest. */
  lemma RegsByteAt(r: Rfc.Regs, j: nat, m: nat)
    requires j < 4 && m < 4
    ensures Rfc.RegsBytes(r)[4 * j + m] == Rfc.WordBytes(RegsWords(r)[j])[m]
  {
    Quarter(Rfc.WordBytes(r.a), Rfc.WordBytes(r.b), Rfc.WordBytes(r.c), Rfc.WordBytes(r.d), j, m);
  }

  lemma Quarter(A: seq<Rfc.Byte>, B: seq<Rfc.Byte>, C: seq<Rfc.Byte>, D: seq<Rfc.Byte>, j: nat, m: nat)
    requires |A| == |B| == |C| == |D| == 4 && j < 4 && m < 4
    ensures (A + B + C + D)[4 * j + m] == [A, B, C, D][j][m]
  {
  }
}
