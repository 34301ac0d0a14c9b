/**
 * The known answers that testMD5 (test-plugin.js:160-176) expects, against
 * the variant md5 of test-plugin.js and against the content script's md5, and
 * the two tests themselves.
 */
module TestPluginVectors {
  import Rfc = Rfc1321
  import opened ContentMd5
  import opened TestPluginMd5
  import CV = ContentMd5Vectors

  /** The rendering of four output bytes from byte i on. */
  function HexGroup(w: seq<Word>, i: nat): string
  {
    Rfc.HexByte(BigEndianByte(w, i)) + Rfc.HexByte(BigEndianByte(w, i + 1)) +
    Rfc.HexByte(BigEndianByte(w, i + 2)) + Rfc.HexByte(BigEndianByte(w, i + 3))
  }

  /** A group reads the four lanes of word j, most significant first. */
  lemma HexGroupWord(w: seq<Word>, j: nat)
    ensures HexGroup(w, 4 * j) == Rfc.HexByte(BigEndianLane(At(w, j), 0)) + Rfc.HexByte(BigEndianLane(At(w, j), 1)) +
      Rfc.HexByte(BigEndianLane(At(w, j), 2)) + Rfc.HexByte(BigEndianLane(At(w, j), 3))
  {
    assert (4 * j) / 4 == j && (4 * j) % 4 == 0;
    assert (4 * j + 1) / 4 == j && (4 * j + 1) % 4 == 1;
    assert (4 * j + 2) / 4 == j && (4 * j + 2) % 4 == 2;
    assert (4 * j + 3) / 4 == j && (4 * j + 3) % 4 == 3;
  }

  lemma Regroup(x: string, a: string, b: string, c: string, d: string)
    ensures x + a + b + c + d == x + (a + b + c + d)
  {
  }

  lemma HexFour(w: seq<Word>, i: nat)
    ensures Rfc.Hex(BigEndianBytes(w, i + 4)) == Rfc.Hex(BigEndianBytes(w, i)) + HexGroup(w, i)
  {
    HexSnoc(w, i);
    HexSnoc(w, i + 1);
    HexSnoc(w, i + 2);
    HexSnoc(w, i + 3);
    Regroup(Rfc.Hex(BigEndianBytes(w, i)), Rfc.HexByte(BigEndianByte(w, i)), Rfc.HexByte(BigEndianByte(w, i + 1)),
      Rfc.HexByte(BigEndianByte(w, i + 2)), Rfc.HexByte(BigEndianByte(w, i + 3)));
  }

  /** The rendering of the sixteen output bytes, four at a time. */
  lemma OutputHex(w: seq<Word>)
    ensures Rfc.Hex(BigEndianBytes(w, 16)) == HexGroup(w, 0) + HexGroup(w, 4) + HexGroup(w, 8) + HexGroup(w, 12)
  {
    assert BigEndianBytes(w, 0) == [];
    assert Rfc.Hex(BigEndianBytes(w, 0)) + HexGroup(w, 0) == HexGroup(w, 0);
    HexFour(w, 0);
    HexFour(w, 4);
    HexFour(w, 8);
    HexFour(w, 12);
  }

  lemma HelloPacked()
    ensures Packed(CV.HelloText) == [0x6c6c6568, 0x0000006f]
  {
    assert PackAt(CV.HelloText, 0) == 0x6c6c6568;
    assert PackAt(CV.HelloText, 4) == 0x0000006f;
  }

  /** The word array after lines 61-62. */
  lemma HelloMarked()
    ensures |VariantMarked([0x6c6c6568, 0x0000006f], 5)| == 16
    ensures At(VariantMarked([0x6c6c6568, 0x0000006f], 5), 0) == 0x6c6c6568 && At(VariantMarked([0x6c6c6568, 0x0000006f], 5), 1) == 0x0080006f && At(VariantMarked([0x6c6c6568, 0x0000006f], 5), 15) == 0x00000028
    ensures forall k: nat :: k < 16 && k != 0 && k != 1 && k != 15 ==> At(VariantMarked([0x6c6c6568, 0x0000006f], 5), k) == 0
  {
    assert VariantMarker(5) == 0x00800000;
    assert LengthWord(5) == 15;
    var y := OrInto([0x6c6c6568, 0x0000006f], 1, 0x00800000);
    assert y == [0x6c6c6568, 0x0080006f];
    HelloLength();
    assert VariantMarked([0x6c6c6568, 0x0000006f], 5) == Store(y, 15, 0x00000028);
  }

  lemma HelloLength()
    ensures ((5 * 8) % 0x1_0000_0000) as Word == 0x00000028
  {
  }

  lemma HelloVariantR1L1(X: seq<Word>)
    requires |X| == 16
    requires X[0] == 0x6c6c6568 && X[1] == 0x0080006f && X[2] == 0x00000000 && X[3] == 0x00000000
    ensures Rfc.Run(Rfc.Round1, Rfc.Regs(0x67452301, 0xefcdab89, 0x98badcfe, 0x10325476), X, Rfc.Round1Ops, 0) == Rfc.Run(Rfc.Round1, Rfc.Regs(0xdb529b2a, 0x98b8186f, 0x1ad970ea, 0x09141780), X, Rfc.Round1Ops, 4)
  {
    Rfc.Round1Line1(0x67452301, 0xefcdab89, 0x98badcfe, 0x10325476, X, 0xdb529b2a, 0x09141780, 0x1ad970ea, 0x98b8186f);
  }

  lemma HelloVariantR1L2(X: seq<Word>)
    requires |X| == 16
    requires X[4] == 0x00000000 && X[5] == 0x00000000 && X[6] == 0x00000000 && X[7] == 0x00000000
    ensures Rfc.Run(Rfc.Round1, Rfc.Regs(0xdb529b2a, 0x98b8186f, 0x1ad970ea, 0x09141780), X, Rfc.Round1Ops, 4) == Rfc.Run(Rfc.Round1, Rfc.Regs(0xce197a64, 0x417ecd79, 0xac45c780, 0x0d8308fb), X, Rfc.Round1Ops, 8)
  {
    Rfc.Round1Line2(0xdb529b2a, 0x98b8186f, 0x1ad970ea, 0x09141780, X, 0xce197a64, 0x0d8308fb, 0xac45c780, 0x417ecd79);
  }

  lemma HelloVariantR1L3(X: seq<Word>)
    requires |X| == 16
    requires X[8] == 0x00000000 && X[9] == 0x00000000 && X[10] == 0x00000000 && X[11] == 0x00000000
    ensures Rfc.Run(Rfc.Round1, Rfc.Regs(0xce197a64, 0x417ecd79, 0xac45c780, 0x0d8308fb), X, Rfc.Round1Ops, 8) == Rfc.Run(Rfc.Round1, Rfc.Regs(0x716b2c9b, 0x8d707041, 0x80015e7f, 0xde6762fe), X, Rfc.Round1Ops, 12)
  {
    Rfc.Round1Line3(0xce197a64, 0x417ecd79, 0xac45c780, 0x0d8308fb, X, 0x716b2c9b, 0xde6762fe, 0x80015e7f, 0x8d707041);
  }

  lemma HelloVariantR1L4(X: seq<Word>)
    requires |X| == 16
    requires X[12] == 0x00000000 && X[13] == 0x00000000 && X[14] == 0x00000000 && X[15] == 0x00000028
    ensures Rfc.Run(Rfc.Round1, Rfc.Regs(0x716b2c9b, 0x8d707041, 0x80015e7f, 0xde6762fe), X, Rfc.Round1Ops, 12) == Rfc.Run(Rfc.Round1, Rfc.Regs(0x0eb8ce98, 0xb6d24e34, 0x2dd3bb01, 0x2108551b), X, Rfc.Round1Ops, 16)
  {
    Rfc.Round1Line4(0x716b2c9b, 0x8d707041, 0x80015e7f, 0xde6762fe, X, 0x0eb8ce98, 0x2108551b, 0x2dd3bb01, 0xb6d24e34);
  }

  lemma HelloVariantR1(X: seq<Word>)
    requires |X| == 16
    requires X[0] == 0x6c6c6568 && X[1] == 0x0080006f && X[2] == 0x00000000 && X[3] == 0x00000000
    requires X[4] == 0x00000000 && X[5] == 0x00000000 && X[6] == 0x00000000 && X[7] == 0x00000000
    requires X[8] == 0x00000000 && X[9] == 0x00000000 && X[10] == 0x00000000 && X[11] == 0x00000000
    requires X[12] == 0x00000000 && X[13] == 0x00000000 && X[14] == 0x00000000 && X[15] == 0x00000028
    ensures Rfc.Run(Rfc.Round1, Rfc.Regs(0x67452301, 0xefcdab89, 0x98badcfe, 0x10325476), X, Rfc.Round1Ops, 0) == Rfc.Regs(0x0eb8ce98, 0xb6d24e34, 0x2dd3bb01, 0x2108551b)
  {
    HelloVariantR1L1(X);
    HelloVariantR1L2(X);
    HelloVariantR1L3(X);
    HelloVariantR1L4(X);
  }

  lemma HelloVariantR2L1(X: seq<Word>)
    requires |X| == 16
    requires X[0] == 0x6c6c6568 && X[1] == 0x0080006f && X[6] == 0x00000000 && X[11] == 0x00000000
    ensures Rfc.Run(Rfc.Round2, Rfc.Regs(0x0eb8ce98, 0xb6d24e34, 0x2dd3bb01, 0x2108551b), X, Rfc.Round2Ops, 0) == Rfc.Run(Rfc.Round2, Rfc.Regs(0xfc2e9d5a, 0x8129d715, 0x40a4c863, 0x93f9bc98), X, Rfc.Round2Ops, 4)
  {
    Rfc.Round2Line1(0x0eb8ce98, 0xb6d24e34, 0x2dd3bb01, 0x2108551b, X, 0xfc2e9d5a, 0x93f9bc98, 0x40a4c863, 0x8129d715);
  }

  lemma HelloVariantR2L2(X: seq<Word>)
    requires |X| == 16
    requires X[4] == 0x00000000 && X[5] == 0x00000000 && X[10] == 0x00000000 && X[15] == 0x00000028
    ensures Rfc.Run(Rfc.Round2, Rfc.Regs(0xfc2e9d5a, 0x8129d715, 0x40a4c863, 0x93f9bc98), X, Rfc.Round2Ops, 4) == Rfc.Run(Rfc.Round2, Rfc.Regs(0xf29a1c67, 0x5dcf23a1, 0xde9b6416, 0x807ae116), X, Rfc.Round2Ops, 8)
  {
    Rfc.Round2Line2(0xfc2e9d5a, 0x8129d715, 0x40a4c863, 0x93f9bc98, X, 0xf29a1c67, 0x807ae116, 0xde9b6416, 0x5dcf23a1);
  }

  lemma HelloVariantR2L3(X: seq<Word>)
    requires |X| == 16
    requires X[3] == 0x00000000 && X[8] == 0x00000000 && X[9] == 0x00000000 && X[14] == 0x00000000
    ensures Rfc.Run(Rfc.Round2, Rfc.Regs(0xf29a1c67, 0x5dcf23a1, 0xde9b6416, 0x807ae116), X, Rfc.Round2Ops, 8) == Rfc.Run(Rfc.Round2, Rfc.Regs(0xc6b10d4f, 0xfca499b5, 0x7cd51dee, 0xd4923366), X, Rfc.Round2Ops, 12)
  {
    Rfc.Round2Line3(0xf29a1c67, 0x5dcf23a1, 0xde9b6416, 0x807ae116, X, 0xc6b10d4f, 0xd4923366, 0x7cd51dee, 0xfca499b5);
  }

  lemma HelloVariantR2L4(X: seq<Word>)
    requires |X| == 16
    requires X[2] == 0x00000000 && X[7] == 0x00000000 && X[12] == 0x00000000 && X[13] == 0x00000000
    ensures Rfc.Run(Rfc.Round2, Rfc.Regs(0xc6b10d4f, 0xfca499b5, 0x7cd51dee, 0xd4923366), X, Rfc.Round2Ops, 12) == Rfc.Run(Rfc.Round2, Rfc.Regs(0xa7e719c2, 0x0412c364, 0x4534d3af, 0x76c97cae), X, Rfc.Round2Ops, 16)
  {
    Rfc.Round2Line4(0xc6b10d4f, 0xfca499b5, 0x7cd51dee, 0xd4923366, X, 0xa7e719c2, 0x76c97cae, 0x4534d3af, 0x0412c364);
  }

  lemma HelloVariantR2(X: seq<Word>)
    requires |X| == 16
    requires X[0] == 0x6c6c6568 && X[1] == 0x0080006f && X[2] == 0x00000000 && X[3] == 0x00000000
    requires X[4] == 0x00000000 && X[5] == 0x00000000 && X[6] == 0x00000000 && X[7] == 0x00000000
    requires X[8] == 0x00000000 && X[9] == 0x00000000 && X[10] == 0x00000000 && X[11] == 0x00000000
    requires X[12] == 0x00000000 && X[13] == 0x00000000 && X[14] == 0x00000000 && X[15] == 0x00000028
    ensures Rfc.Run(Rfc.Round2, Rfc.Regs(0x0eb8ce98, 0xb6d24e34, 0x2dd3bb01, 0x2108551b), X, Rfc.Round2Ops, 0) == Rfc.Regs(0xa7e719c2, 0x0412c364, 0x4534d3af, 0x76c97cae)
  {
    HelloVariantR2L1(X);
    HelloVariantR2L2(X);
    HelloVariantR2L3(X);
    HelloVariantR2L4(X);
  }

  lemma HelloVariantR3L1(X: seq<Word>)
    requires |X| == 16
    requires X[5] == 0x00000000 && X[8] == 0x00000000 && X[11] == 0x00000000 && X[14] == 0x00000000
    ensures Rfc.Run(Rfc.Round3, Rfc.Regs(0xa7e719c2, 0x0412c364, 0x4534d3af, 0x76c97cae), X, Rfc.Round3Ops, 0) == Rfc.Run(Rfc.Round3, Rfc.Regs(0x011eba01, 0xa7ab0a38, 0xd170ddc9, 0xa20e83f4), X, Rfc.Round3Ops, 4)
  {
    Rfc.Round3Line1(0xa7e719c2, 0x0412c364, 0x4534d3af, 0x76c97cae, X, 0x011eba01, 0xa20e83f4, 0xd170ddc9, 0xa7ab0a38);
  }

  lemma HelloVariantR3L2(X: seq<Word>)
    requires |X| == 16
    requires X[1] == 0x0080006f && X[4] == 0x00000000 && X[7] == 0x00000000 && X[10] == 0x00000000
    ensures Rfc.Run(Rfc.Round3, Rfc.Regs(0x011eba01, 0xa7ab0a38, 0xd170ddc9, 0xa20e83f4), X, Rfc.Round3Ops, 4) == Rfc.Run(Rfc.Round3, Rfc.Regs(0x5ada95cf, 0x878f46ef, 0xea1c69c3, 0xcf896e9e), X, Rfc.Round3Ops, 8)
  {
    Rfc.Round3Line2(0x011eba01, 0xa7ab0a38, 0xd170ddc9, 0xa20e83f4, X, 0x5ada95cf, 0xcf896e9e, 0xea1c69c3, 0x878f46ef);
  }

  lemma HelloVariantR3L3(X: seq<Word>)
    requires |X| == 16
    requires X[0] == 0x6c6c6568 && X[3] == 0x00000000 && X[6] == 0x00000000 && X[13] == 0x00000000
    ensures Rfc.Run(Rfc.Round3, Rfc.Regs(0x5ada95cf, 0x878f46ef, 0xea1c69c3, 0xcf896e9e), X, Rfc.Round3Ops, 8) == Rfc.Run(Rfc.Round3, Rfc.Regs(0xe094ab61, 0x6340bfe2, 0x64528b95, 0xd49718fd), X, Rfc.Round3Ops, 12)
  {
    Rfc.Round3Line3(0x5ada95cf, 0x878f46ef, 0xea1c69c3, 0xcf896e9e, X, 0xe094ab61, 0xd49718fd, 0x64528b95, 0x6340bfe2);
  }

  lemma HelloVariantR3L4(X: seq<Word>)
    requires |X| == 16
    requires X[2] == 0x00000000 && X[9] == 0x00000000 && X[12] == 0x00000000 && X[15] == 0x00000028
    ensures Rfc.Run(Rfc.Round3, Rfc.Regs(0xe094ab61, 0x6340bfe2, 0x64528b95, 0xd49718fd), X, Rfc.Round3Ops, 12) == Rfc.Run(Rfc.Round3, Rfc.Regs(0x422b422a, 0xbb6fde69, 0x74114042, 0xa3753a2f), X, Rfc.Round3Ops, 16)
  {
    Rfc.Round3Line4(0xe094ab61, 0x6340bfe2, 0x64528b95, 0xd49718fd, X, 0x422b422a, 0xa3753a2f, 0x74114042, 0xbb6fde69);
  }

  lemma HelloVariantR3(X: seq<Word>)
    requires |X| == 16
    requires X[0] == 0x6c6c6568 && X[1] == 0x0080006f && X[2] == 0x00000000 && X[3] == 0x00000000
    requires X[4] == 0x00000000 && X[5] == 0x00000000 && X[6] == 0x00000000 && X[7] == 0x00000000
    requires X[8] == 0x00000000 && X[9] == 0x00000000 && X[10] == 0x00000000 && X[11] == 0x00000000
    requires X[12] == 0x00000000 && X[13] == 0x00000000 && X[14] == 0x00000000 && X[15] == 0x00000028
    ensures Rfc.Run(Rfc.Round3, Rfc.Regs(0xa7e719c2, 0x0412c364, 0x4534d3af, 0x76c97cae), X, Rfc.Round3Ops, 0) == Rfc.Regs(0x422b422a, 0xbb6fde69, 0x74114042, 0xa3753a2f)
  {
    HelloVariantR3L1(X);
    HelloVariantR3L2(X);
    HelloVariantR3L3(X);
    HelloVariantR3L4(X);
  }

  lemma HelloVariantR4L1(X: seq<Word>)
    requires |X| == 16
    requires X[0] == 0x6c6c6568 && X[5] == 0x00000000 && X[7] == 0x00000000 && X[14] == 0x00000000
    ensures Rfc.Run(Rfc.Round4, Rfc.Regs(0x422b422a, 0xbb6fde69, 0x74114042, 0xa3753a2f), X, Rfc.Round4Ops, 0) == Rfc.Run(Rfc.Round4, Rfc.Regs(0x6b4a42b4, 0x85626cae, 0x173e8b5c, 0xf0b8ab90), X, Rfc.Round4Ops, 4)
  {
    Rfc.Round4Line1(0x422b422a, 0xbb6fde69, 0x74114042, 0xa3753a2f, X, 0x6b4a42b4, 0xf0b8ab90, 0x173e8b5c, 0x85626cae);
  }

  lemma HelloVariantR4L2(X: seq<Word>)
    requires |X| == 16
    requires X[1] == 0x0080006f && X[3] == 0x00000000 && X[10] == 0x00000000 && X[12] == 0x00000000
    ensures Rfc.Run(Rfc.Round4, Rfc.Regs(0x6b4a42b4, 0x85626cae, 0x173e8b5c, 0xf0b8ab90), X, Rfc.Round4Ops, 4) == Rfc.Run(Rfc.Round4, Rfc.Regs(0xc5477748, 0xa065fac3, 0x1fda7fed, 0x6f9516e9), X, Rfc.Round4Ops, 8)
  {
    Rfc.Round4Line2(0x6b4a42b4, 0x85626cae, 0x173e8b5c, 0xf0b8ab90, X, 0xc5477748, 0x6f9516e9, 0x1fda7fed, 0xa065fac3);
  }

  lemma HelloVariantR4L3(X: seq<Word>)
    requires |X| == 16
    requires X[6] == 0x00000000 && X[8] == 0x00000000 && X[13] == 0x00000000 && X[15] == 0x00000028
    ensures Rfc.Run(Rfc.Round4, Rfc.Regs(0xc5477748, 0xa065fac3, 0x1fda7fed, 0x6f9516e9), X, Rfc.Round4Ops, 8) == Rfc.Run(Rfc.Round4, Rfc.Regs(0xc9c46f3c, 0xfdd819ed, 0xd39596b4, 0xd2142a19), X, Rfc.Round4Ops, 12)
  {
    Rfc.Round4Line3(0xc5477748, 0xa065fac3, 0x1fda7fed, 0x6f9516e9, X, 0xc9c46f3c, 0xd2142a19, 0xd39596b4, 0xfdd819ed);
  }

  lemma HelloVariantR4L4(X: seq<Word>)
    requires |X| == 16
    requires X[2] == 0x00000000 && X[4] == 0x00000000 && X[9] == 0x00000000 && X[11] == 0x00000000
    ensures Rfc.Run(Rfc.Round4, Rfc.Regs(0xc9c46f3c, 0xfdd819ed, 0xd39596b4, 0xd2142a19), X, Rfc.Round4Ops, 12) == Rfc.Run(Rfc.Round4, Rfc.Regs(0xdf666068, 0xd26b76fe, 0x75be4653, 0xf599b2b0), X, Rfc.Round4Ops, 16)
  {
    Rfc.Round4Line4(0xc9c46f3c, 0xfdd819ed, 0xd39596b4, 0xd2142a19, X, 0xdf666068, 0xf599b2b0, 0x75be4653, 0xd26b76fe);
  }

  lemma HelloVariantR4(X: seq<Word>)
    requires |X| == 16
    requires X[0] == 0x6c6c6568 && X[1] == 0x0080006f && X[2] == 0x00000000 && X[3] == 0x00000000
    requires X[4] == 0x00000000 && X[5] == 0x00000000 && X[6] == 0x00000000 && X[7] == 0x00000000
    requires X[8] == 0x00000000 && X[9] == 0x00000000 && X[10] == 0x00000000 && X[11] == 0x00000000
    requires X[12] == 0x00000000 && X[13] == 0x00000000 && X[14] == 0x00000000 && X[15] == 0x00000028
    ensures Rfc.Run(Rfc.Round4, Rfc.Regs(0x422b422a, 0xbb6fde69, 0x74114042, 0xa3753a2f), X, Rfc.Round4Ops, 0) == Rfc.Regs(0xdf666068, 0xd26b76fe, 0x75be4653, 0xf599b2b0)
  {
    HelloVariantR4L1(X);
    HelloVariantR4L2(X);
    HelloVariantR4L3(X);
    HelloVariantR4L4(X);
  }

  lemma HelloVariantCompress(X: seq<Word>)
    requires |X| == 16
    requires X[0] == 0x6c6c6568 && X[1] == 0x0080006f && X[2] == 0x00000000 && X[3] == 0x00000000
    requires X[4] == 0x00000000 && X[5] == 0x00000000 && X[6] == 0x00000000 && X[7] == 0x00000000
    requires X[8] == 0x00000000 && X[9] == 0x00000000 && X[10] == 0x00000000 && X[11] == 0x00000000
    requires X[12] == 0x00000000 && X[13] == 0x00000000 && X[14] == 0x00000000 && X[15] == 0x00000028
    ensures Rfc.Compress(Rfc.Regs(0x67452301, 0xefcdab89, 0x98badcfe, 0x10325476), X) == Rfc.Regs(0x46ab8369, 0xc2392287, 0x0e792351, 0x05cc0726)
  {
    HelloVariantR1(X);
    HelloVariantR2(X);
    HelloVariantR3(X);
    HelloVariantR4(X);
  }

  lemma HelloCore()
    ensures VariantCore(CV.HelloText) == Rfc.Regs(0x46ab8369, 0xc2392287, 0x0e792351, 0x05cc0726)
  {
    HelloPacked();
    HelloMarked();
    CV.HashFromOne(Rfc.Init, VariantMarked([0x6c6c6568, 0x0000006f], 5));
    HelloVariantCompress(Block(VariantMarked([0x6c6c6568, 0x0000006f], 5), 0));
  }

  lemma HelloLane00()
    ensures BigEndianLane(0x46ab8369, 0) == 0x46
  {
  }

  lemma HelloLane01()
    ensures BigEndianLane(0x46ab8369, 1) == 0xab
  {
  }

  lemma HelloLane02()
    ensures BigEndianLane(0x46ab8369, 2) == 0x83
  {
  }

  lemma HelloLane03()
    ensures BigEndianLane(0x46ab8369, 3) == 0x69
  {
  }

  lemma HelloDigits0()
    ensures Rfc.HexByte(0x46) + Rfc.HexByte(0xab) + Rfc.HexByte(0x83) + Rfc.HexByte(0x69) == "46ab8369"
  {
  }

  /** Register 0 of the final registers, as lines 51-52 render it. */
  lemma HelloGroup0()
    ensures HexGroup(RegsWords(Rfc.Regs(0x46ab8369, 0xc2392287, 0x0e792351, 0x05cc0726)), 0) == "46ab8369"
  {
    assert At(RegsWords(Rfc.Regs(0x46ab8369, 0xc2392287, 0x0e792351, 0x05cc0726)), 0) == 0x46ab8369;
    HexGroupWord(RegsWords(Rfc.Regs(0x46ab8369, 0xc2392287, 0x0e792351, 0x05cc0726)), 0);
    HelloLane00();
    HelloLane01();
    HelloLane02();
    HelloLane03();
    HelloDigits0();
  }

  lemma HelloLane10()
    ensures BigEndianLane(0xc2392287, 0) == 0xc2
  {
  }

  lemma HelloLane11()
    ensures BigEndianLane(0xc2392287, 1) == 0x39
  {
  }

  lemma HelloLane12()
    ensures BigEndianLane(0xc2392287, 2) == 0x22
  {
  }

  lemma HelloLane13()
    ensures BigEndianLane(0xc2392287, 3) == 0x87
  {
  }

  lemma HelloDigits1()
    ensures Rfc.HexByte(0xc2) + Rfc.HexByte(0x39) + Rfc.HexByte(0x22) + Rfc.HexByte(0x87) == "c2392287"
  {
  }

  /** Register 1 of the final registers, as lines 51-52 render it. */
  lemma HelloGroup1()
    ensures HexGroup(RegsWords(Rfc.Regs(0x46ab8369, 0xc2392287, 0x0e792351, 0x05cc0726)), 4) == "c2392287"
  {
    assert At(RegsWords(Rfc.Regs(0x46ab8369, 0xc2392287, 0x0e792351, 0x05cc0726)), 1) == 0xc2392287;
    HexGroupWord(RegsWords(Rfc.Regs(0x46ab8369, 0xc2392287, 0x0e792351, 0x05cc0726)), 1);
    HelloLane10();
    HelloLane11();
    HelloLane12();
    HelloLane13();
    HelloDigits1();
  }

  lemma HelloLane20()
    ensures BigEndianLane(0x0e792351, 0) == 0x0e
  {
  }

  lemma HelloLane21()
    ensures BigEndianLane(0x0e792351, 1) == 0x79
  {
  }

  lemma HelloLane22()
    ensures BigEndianLane(0x0e792351, 2) == 0x23
  {
  }

  lemma HelloLane23()
    ensures BigEndianLane(0x0e792351, 3) == 0x51
  {
  }

  lemma HelloDigits2()
    ensures Rfc.HexByte(0x0e) + Rfc.HexByte(0x79) + Rfc.HexByte(0x23) + Rfc.HexByte(0x51) == "0e792351"
  {
  }

  /** Register 2 of the final registers, as lines 51-52 render it. */
  lemma HelloGroup2()
    ensures HexGroup(RegsWords(Rfc.Regs(0x46ab8369, 0xc2392287, 0x0e792351, 0x05cc0726)), 8) == "0e792351"
  {
    assert At(RegsWords(Rfc.Regs(0x46ab8369, 0xc2392287, 0x0e792351, 0x05cc0726)), 2) == 0x0e792351;
    HexGroupWord(RegsWords(Rfc.Regs(0x46ab8369, 0xc2392287, 0x0e792351, 0x05cc0726)), 2);
    HelloLane20();
    HelloLane21();
    HelloLane22();
    HelloLane23();
    HelloDigits2();
  }

  lemma HelloLane30()
    ensures BigEndianLane(0x05cc0726, 0) == 0x05
  {
  }

  lemma HelloLane31()
    ensures BigEndianLane(0x05cc0726, 1) == 0xcc
  {
  }

  lemma HelloLane32()
    ensures BigEndianLane(0x05cc0726, 2) == 0x07
  {
  }

  lemma HelloLane33()
    ensures BigEndianLane(0x05cc0726, 3) == 0x26
  {
  }

  lemma HelloDigits3()
    ensures Rfc.HexByte(0x05) + Rfc.HexByte(0xcc) + Rfc.HexByte(0x07) + Rfc.HexByte(0x26) == "05cc0726"
  {
  }

  /** Register 3 of the final registers, as lines 51-52 render it. */
  lemma HelloGroup3()
    ensures HexGroup(RegsWords(Rfc.Regs(0x46ab8369, 0xc2392287, 0x0e792351, 0x05cc0726)), 12) == "05cc0726"
  {
    assert At(RegsWords(Rfc.Regs(0x46ab8369, 0xc2392287, 0x0e792351, 0x05cc0726)), 3) == 0x05cc0726;
    HexGroupWord(RegsWords(Rfc.Regs(0x46ab8369, 0xc2392287, 0x0e792351, 0x05cc0726)), 3);
    HelloLane30();
    HelloLane31();
    HelloLane32();
    HelloLane33();
    HelloDigits3();
  }

  lemma HelloVariantText()
    ensures "46ab8369" + "c2392287" + "0e792351" + "05cc0726" == "46ab8369c23922870e79235105cc0726"
  {
  }

  /** md5("hello") as test-plugin.js computes it. */
  lemma HelloVariant()
    ensures VariantMd5(CV.HelloText) == "46ab8369c23922870e79235105cc0726"
  {
    HelloCore();
    OutputHex(RegsWords(Rfc.Regs(0x46ab8369, 0xc2392287, 0x0e792351, 0x05cc0726)));
    HelloGroup0();
    HelloGroup1();
    HelloGroup2();
    HelloGroup3();
    HelloVariantText();
  }

  /** The expectation of line 163 fails for the variant and holds for the
      content script's md5. */
  lemma HelloExpectation()
    ensures VariantMd5(CV.HelloText) != "5d41402abc4b2a76b9719d911017c592"
    ensures Md5AsWritten(CV.HelloText) == "5d41402abc4b2a76b9719d911017c592"
  {
    HelloVariant();
    CV.HelloAnswer();
  }

  lemma WorldPacked()
    ensures Packed(CV.WorldText) == [0x6c726f77, 0x00000064]
  {
    assert PackAt(CV.WorldText, 0) == 0x6c726f77;
    assert PackAt(CV.WorldText, 4) == 0x00000064;
  }

  /** The word array after lines 61-62. */
  lemma WorldMarked()
    ensures |VariantMarked([0x6c726f77, 0x00000064], 5)| == 16
    ensures At(VariantMarked([0x6c726f77, 0x00000064], 5), 0) == 0x6c726f77 && At(VariantMarked([0x6c726f77, 0x00000064], 5), 1) == 0x00800064 && At(VariantMarked([0x6c726f77, 0x00000064], 5), 15) == 0x00000028
    ensures forall k: nat :: k < 16 && k != 0 && k != 1 && k != 15 ==> At(VariantMarked([0x6c726f77, 0x00000064], 5), k) == 0
  {
    assert VariantMarker(5) == 0x00800000;
    assert LengthWord(5) == 15;
    var y := OrInto([0x6c726f77, 0x00000064], 1, 0x00800000);
    assert y == [0x6c726f77, 0x00800064];
    WorldLength();
    assert VariantMarked([0x6c726f77, 0x00000064], 5) == Store(y, 15, 0x00000028);
  }

  lemma WorldLength()
    ensures ((5 * 8) % 0x1_0000_0000) as Word == 0x00000028
  {
  }

  lemma WorldVariantR1L1(X: seq<Word>)
    requires |X| == 16
    requires X[0] == 0x6c726f77 && X[1] == 0x00800064 && X[2] == 0x00000000 && X[3] == 0x00000000
    ensures Rfc.Run(Rfc.Round1, Rfc.Regs(0x67452301, 0xefcdab89, 0x98badcfe, 0x10325476), X, Rfc.Round1Ops, 0) == Rfc.Run(Rfc.Round1, Rfc.Regs(0xde57a2aa, 0x8c71dfe9, 0x400de671, 0x5f086f30), X, Rfc.Round1Ops, 4)
  {
    Rfc.Round1Line1(0x67452301, 0xefcdab89, 0x98badcfe, 0x10325476, X, 0xde57a2aa, 0x5f086f30, 0x400de671, 0x8c71dfe9);
  }

  lemma WorldVariantR1L2(X: seq<Word>)
    requires |X| == 16
    requires X[4] == 0x00000000 && X[5] == 0x00000000 && X[6] == 0x00000000 && X[7] == 0x00000000
    ensures Rfc.Run(Rfc.Round1, Rfc.Regs(0xde57a2aa, 0x8c71dfe9, 0x400de671, 0x5f086f30), X, Rfc.Round1Ops, 4) == Rfc.Run(Rfc.Round1, Rfc.Regs(0xfb3e44fc, 0x497f3206, 0x0fdd7b4b, 0x1d0277e8), X, Rfc.Round1Ops, 8)
  {
    Rfc.Round1Line2(0xde57a2aa, 0x8c71dfe9, 0x400de671, 0x5f086f30, X, 0xfb3e44fc, 0x1d0277e8, 0x0fdd7b4b, 0x497f3206);
  }

  lemma WorldVariantR1L3(X: seq<Word>)
    requires |X| == 16
    requires X[8] == 0x00000000 && X[9] == 0x00000000 && X[10] == 0x00000000 && X[11] == 0x00000000
    ensures Rfc.Run(Rfc.Round1, Rfc.Regs(0xfb3e44fc, 0x497f3206, 0x0fdd7b4b, 0x1d0277e8), X, Rfc.Round1Ops, 8) == Rfc.Run(Rfc.Round1, Rfc.Regs(0x57aa1147, 0x5bb1bda0, 0x98cb2e92, 0xc6447063), X, Rfc.Round1Ops, 12)
  {
    Rfc.Round1Line3(0xfb3e44fc, 0x497f3206, 0x0fdd7b4b, 0x1d0277e8, X, 0x57aa1147, 0xc6447063, 0x98cb2e92, 0x5bb1bda0);
  }

  lemma WorldVariantR1L4(X: seq<Word>)
    requires |X| == 16
    requires X[12] == 0x00000000 && X[13] == 0x00000000 && X[14] == 0x00000000 && X[15] == 0x00000028
    ensures Rfc.Run(Rfc.Round1, Rfc.Regs(0x57aa1147, 0x5bb1bda0, 0x98cb2e92, 0xc6447063), X, Rfc.Round1Ops, 12) == Rfc.Run(Rfc.Round1, Rfc.Regs(0x5b7953cf, 0xd2c42c12, 0x6582f433, 0x5d71bdc8), X, Rfc.Round1Ops, 16)
  {
    Rfc.Round1Line4(0x57aa1147, 0x5bb1bda0, 0x98cb2e92, 0xc6447063, X, 0x5b7953cf, 0x5d71bdc8, 0x6582f433, 0xd2c42c12);
  }

  lemma WorldVariantR1(X: seq<Word>)
    requires |X| == 16
    requires X[0] == 0x6c726f77 && X[1] == 0x00800064 && X[2] == 0x00000000 && X[3] == 0x00000000
    requires X[4] == 0x00000000 && X[5] == 0x00000000 && X[6] == 0x00000000 && X[7] == 0x00000000
    requires X[8] == 0x00000000 && X[9] == 0x00000000 && X[10] == 0x00000000 && X[11] == 0x00000000
    requires X[12] == 0x00000000 && X[13] == 0x00000000 && X[14] == 0x00000000 && X[15] == 0x00000028
    ensures Rfc.Run(Rfc.Round1, Rfc.Regs(0x67452301, 0xefcdab89, 0x98badcfe, 0x10325476), X, Rfc.Round1Ops, 0) == Rfc.Regs(0x5b7953cf, 0xd2c42c12, 0x6582f433, 0x5d71bdc8)
  {
    WorldVariantR1L1(X);
    WorldVariantR1L2(X);
    WorldVariantR1L3(X);
    WorldVariantR1L4(X);
  }

  lemma WorldVariantR2L1(X: seq<Word>)
    requires |X| == 16
    requires X[0] == 0x6c726f77 && X[1] == 0x00800064 && X[6] == 0x00000000 && X[11] == 0x00000000
    ensures Rfc.Run(Rfc.Round2, Rfc.Regs(0x5b7953cf, 0xd2c42c12, 0x6582f433, 0x5d71bdc8), X, Rfc.Round2Ops, 0) == Rfc.Run(Rfc.Round2, Rfc.Regs(0x2e00e52a, 0xcd70a777, 0xaaaa6ce9, 0x1cbb3ad1), X, Rfc.Round2Ops, 4)
  {
    Rfc.Round2Line1(0x5b7953cf, 0xd2c42c12, 0x6582f433, 0x5d71bdc8, X, 0x2e00e52a, 0x1cbb3ad1, 0xaaaa6ce9, 0xcd70a777);
  }

  lemma WorldVariantR2L2(X: seq<Word>)
    requires |X| == 16
    requires X[4] == 0x00000000 && X[5] == 0x00000000 && X[10] == 0x00000000 && X[15] == 0x00000028
    ensures Rfc.Run(Rfc.Round2, Rfc.Regs(0x2e00e52a, 0xcd70a777, 0xaaaa6ce9, 0x1cbb3ad1), X, Rfc.Round2Ops, 4) == Rfc.Run(Rfc.Round2, Rfc.Regs(0x197c278d, 0x5a156a76, 0x48099593, 0x0969ae65), X, Rfc.Round2Ops, 8)
  {
    Rfc.Round2Line2(0x2e00e52a, 0xcd70a777, 0xaaaa6ce9, 0x1cbb3ad1, X, 0x197c278d, 0x0969ae65, 0x48099593, 0x5a156a76);
  }

  lemma WorldVariantR2L3(X: seq<Word>)
    requires |X| == 16
    requires X[3] == 0x00000000 && X[8] == 0x00000000 && X[9] == 0x00000000 && X[14] == 0x00000000
    ensures Rfc.Run(Rfc.Round2, Rfc.Regs(0x197c278d, 0x5a156a76, 0x48099593, 0x0969ae65), X, Rfc.Round2Ops, 8) == Rfc.Run(Rfc.Round2, Rfc.Regs(0xc5fb97a6, 0x8e4d0c7b, 0xe3a6db16, 0x4367d9e3), X, Rfc.Round2Ops, 12)
  {
    Rfc.Round2Line3(0x197c278d, 0x5a156a76, 0x48099593, 0x0969ae65, X, 0xc5fb97a6, 0x4367d9e3, 0xe3a6db16, 0x8e4d0c7b);
  }

  lemma WorldVariantR2L4(X: seq<Word>)
    requires |X| == 16
    requires X[2] == 0x00000000 && X[7] == 0x00000000 && X[12] == 0x00000000 && X[13] == 0x00000000
    ensures Rfc.Run(Rfc.Round2, Rfc.Regs(0xc5fb97a6, 0x8e4d0c7b, 0xe3a6db16, 0x4367d9e3), X, Rfc.Round2Ops, 12) == Rfc.Run(Rfc.Round2, Rfc.Regs(0xe2de70bd, 0x24f183ee, 0x8426cc05, 0x3083211b), X, Rfc.Round2Ops, 16)
  {
    Rfc.Round2Line4(0xc5fb97a6, 0x8e4d0c7b, 0xe3a6db16, 0x4367d9e3, X, 0xe2de70bd, 0x3083211b, 0x8426cc05, 0x24f183ee);
  }

  lemma WorldVariantR2(X: seq<Word>)
    requires |X| == 16
    requires X[0] == 0x6c726f77 && X[1] == 0x00800064 && X[2] == 0x00000000 && X[3] == 0x00000000
    requires X[4] == 0x00000000 && X[5] == 0x00000000 && X[6] == 0x00000000 && X[7] == 0x00000000
    requires X[8] == 0x00000000 && X[9] == 0x00000000 && X[10] == 0x00000000 && X[11] == 0x00000000
    requires X[12] == 0x00000000 && X[13] == 0x00000000 && X[14] == 0x00000000 && X[15] == 0x00000028
    ensures Rfc.Run(Rfc.Round2, Rfc.Regs(0x5b7953cf, 0xd2c42c12, 0x6582f433, 0x5d71bdc8), X, Rfc.Round2Ops, 0) == Rfc.Regs(0xe2de70bd, 0x24f183ee, 0x8426cc05, 0x3083211b)
  {
    WorldVariantR2L1(X);
    WorldVariantR2L2(X);
    WorldVariantR2L3(X);
    WorldVariantR2L4(X);
  }

  lemma WorldVariantR3L1(X: seq<Word>)
    requires |X| == 16
    requires X[5] == 0x00000000 && X[8] == 0x00000000 && X[11] == 0x00000000 && X[14] == 0x00000000
    ensures Rfc.Run(Rfc.Round3, Rfc.Regs(0xe2de70bd, 0x24f183ee, 0x8426cc05, 0x3083211b), X, Rfc.Round3Ops, 0) == Rfc.Run(Rfc.Round3, Rfc.Regs(0x57c312e5, 0x29163c82, 0xc9e62a7c, 0xa368685d), X, Rfc.Round3Ops, 4)
  {
    Rfc.Round3Line1(0xe2de70bd, 0x24f183ee, 0x8426cc05, 0x3083211b, X, 0x57c312e5, 0xa368685d, 0xc9e62a7c, 0x29163c82);
  }

  lemma WorldVariantR3L2(X: seq<Word>)
    requires |X| == 16
    requires X[1] == 0x00800064 && X[4] == 0x00000000 && X[7] == 0x00000000 && X[10] == 0x00000000
    ensures Rfc.Run(Rfc.Round3, Rfc.Regs(0x57c312e5, 0x29163c82, 0xc9e62a7c, 0xa368685d), X, Rfc.Round3Ops, 4) == Rfc.Run(Rfc.Round3, Rfc.Regs(0x32bdff86, 0x41e105cf, 0x883c7695, 0xdbc9f592), X, Rfc.Round3Ops, 8)
  {
    Rfc.Round3Line2(0x57c312e5, 0x29163c82, 0xc9e62a7c, 0xa368685d, X, 0x32bdff86, 0xdbc9f592, 0x883c7695, 0x41e105cf);
  }

  lemma WorldVariantR3L3(X: seq<Word>)
    requires |X| == 16
    requires X[0] == 0x6c726f77 && X[3] == 0x00000000 && X[6] == 0x00000000 && X[13] == 0x00000000
    ensures Rfc.Run(Rfc.Round3, Rfc.Regs(0x32bdff86, 0x41e105cf, 0x883c7695, 0xdbc9f592), X, Rfc.Round3Ops, 8) == Rfc.Run(Rfc.Round3, Rfc.Regs(0x18c15715, 0xa25627b6, 0x435403cb, 0xe64be734), X, Rfc.Round3Ops, 12)
  {
    Rfc.Round3Line3(0x32bdff86, 0x41e105cf, 0x883c7695, 0xdbc9f592, X, 0x18c15715, 0xe64be734, 0x435403cb, 0xa25627b6);
  }

  lemma WorldVariantR3L4(X: seq<Word>)
    requires |X| == 16
    requires X[2] == 0x00000000 && X[9] == 0x00000000 && X[12] == 0x00000000 && X[15] == 0x00000028
    ensures Rfc.Run(Rfc.Round3, Rfc.Regs(0x18c15715, 0xa25627b6, 0x435403cb, 0xe64be734), X, Rfc.Round3Ops, 12) == Rfc.Run(Rfc.Round3, Rfc.Regs(0x4054d135, 0x0ba73d6e, 0xdf1e15a3, 0x3407dca8), X, Rfc.Round3Ops, 16)
  {
    Rfc.Round3Line4(0x18c15715, 0xa25627b6, 0x435403cb, 0xe64be734, X, 0x4054d135, 0x3407dca8, 0xdf1e15a3, 0x0ba73d6e);
  }

  lemma WorldVariantR3(X: seq<Word>)
    requires |X| == 16
    requires X[0] == 0x6c726f77 && X[1] == 0x00800064 && X[2] == 0x00000000 && X[3] == 0x00000000
    requires X[4] == 0x00000000 && X[5] == 0x00000000 && X[6] == 0x00000000 && X[7] == 0x00000000
    requires X[8] == 0x00000000 && X[9] == 0x00000000 && X[10] == 0x00000000 && X[11] == 0x00000000
    requires X[12] == 0x00000000 && X[13] == 0x00000000 && X[14] == 0x00000000 && X[15] == 0x00000028
    ensures Rfc.Run(Rfc.Round3, Rfc.Regs(0xe2de70bd, 0x24f183ee, 0x8426cc05, 0x3083211b), X, Rfc.Round3Ops, 0) == Rfc.Regs(0x4054d135, 0x0ba73d6e, 0xdf1e15a3, 0x3407dca8)
  {
    WorldVariantR3L1(X);
    WorldVariantR3L2(X);
    WorldVariantR3L3(X);
    WorldVariantR3L4(X);
  }

  lemma WorldVariantR4L1(X: seq<Word>)
    requires |X| == 16
    requires X[0] == 0x6c726f77 && X[5] == 0x00000000 && X[7] == 0x00000000 && X[14] == 0x00000000
    ensures Rfc.Run(Rfc.Round4, Rfc.Regs(0x4054d135, 0x0ba73d6e, 0xdf1e15a3, 0x3407dca8), X, Rfc.Round4Ops, 0) == Rfc.Run(Rfc.Round4, Rfc.Regs(0x800ab09b, 0x49e7aae2, 0xbcd675e5, 0x7e9a7124), X, Rfc.Round4Ops, 4)
  {
    Rfc.Round4Line1(0x4054d135, 0x0ba73d6e, 0xdf1e15a3, 0x3407dca8, X, 0x800ab09b, 0x7e9a7124, 0xbcd675e5, 0x49e7aae2);
  }

  lemma WorldVariantR4L2(X: seq<Word>)
    requires |X| == 16
    requires X[1] == 0x00800064 && X[3] == 0x00000000 && X[10] == 0x00000000 && X[12] == 0x00000000
    ensures Rfc.Run(Rfc.Round4, Rfc.Regs(0x800ab09b, 0x49e7aae2, 0xbcd675e5, 0x7e9a7124), X, Rfc.Round4Ops, 4) == Rfc.Run(Rfc.Round4, Rfc.Regs(0xefe109f8, 0x33aae97f, 0xa8a12f87, 0xc55c44c6), X, Rfc.Round4Ops, 8)
  {
    Rfc.Round4Line2(0x800ab09b, 0x49e7aae2, 0xbcd675e5, 0x7e9a7124, X, 0xefe109f8, 0xc55c44c6, 0xa8a12f87, 0x33aae97f);
  }

  lemma WorldVariantR4L3(X: seq<Word>)
    requires |X| == 16
    requires X[6] == 0x00000000 && X[8] == 0x00000000 && X[13] == 0x00000000 && X[15] == 0x00000028
    ensures Rfc.Run(Rfc.Round4, Rfc.Regs(0xefe109f8, 0x33aae97f, 0xa8a12f87, 0xc55c44c6), X, Rfc.Round4Ops, 8) == Rfc.Run(Rfc.Round4, Rfc.Regs(0xd8c2397b, 0x969634d4, 0xdedfb4a7, 0xcdb1843a), X, Rfc.Round4Ops, 12)
  {
    Rfc.Round4Line3(0xefe109f8, 0x33aae97f, 0xa8a12f87, 0xc55c44c6, X, 0xd8c2397b, 0xcdb1843a, 0xdedfb4a7, 0x969634d4);
  }

  lemma WorldVariantR4L4(X: seq<Word>)
    requires |X| == 16
    requires X[2] == 0x00000000 && X[4] == 0x00000000 && X[9] == 0x00000000 && X[11] == 0x00000000
    ensures Rfc.Run(Rfc.Round4, Rfc.Regs(0xd8c2397b, 0x969634d4, 0xdedfb4a7, 0xcdb1843a), X, Rfc.Round4Ops, 12) == Rfc.Run(Rfc.Round4, Rfc.Regs(0x9c7710a2, 0x2493f496, 0x07ad3ce6, 0xd40d877d), X, Rfc.Round4Ops, 16)
  {
    Rfc.Round4Line4(0xd8c2397b, 0x969634d4, 0xdedfb4a7, 0xcdb1843a, X, 0x9c7710a2, 0xd40d877d, 0x07ad3ce6, 0x2493f496);
  }

  lemma WorldVariantR4(X: seq<Word>)
    requires |X| == 16
    requires X[0] == 0x6c726f77 && X[1] == 0x00800064 && X[2] == 0x00000000 && X[3] == 0x00000000
    requires X[4] == 0x00000000 && X[5] == 0x00000000 && X[6] == 0x00000000 && X[7] == 0x00000000
    requires X[8] == 0x00000000 && X[9] == 0x00000000 && X[10] == 0x00000000 && X[11] == 0x00000000
    requires X[12] == 0x00000000 && X[13] == 0x00000000 && X[14] == 0x00000000 && X[15] == 0x00000028
    ensures Rfc.Run(Rfc.Round4, Rfc.Regs(0x4054d135, 0x0ba73d6e, 0xdf1e15a3, 0x3407dca8), X, Rfc.Round4Ops, 0) == Rfc.Regs(0x9c7710a2, 0x2493f496, 0x07ad3ce6, 0xd40d877d)
  {
    WorldVariantR4L1(X);
    WorldVariantR4L2(X);
    WorldVariantR4L3(X);
    WorldVariantR4L4(X);
  }

  lemma WorldVariantCompress(X: seq<Word>)
    requires |X| == 16
    requires X[0] == 0x6c726f77 && X[1] == 0x00800064 && X[2] == 0x00000000 && X[3] == 0x00000000
    requires X[4] == 0x00000000 && X[5] == 0x00000000 && X[6] == 0x00000000 && X[7] == 0x00000000
    requires X[8] == 0x00000000 && X[9] == 0x00000000 && X[10] == 0x00000000 && X[11] == 0x00000000
    requires X[12] == 0x00000000 && X[13] == 0x00000000 && X[14] == 0x00000000 && X[15] == 0x00000028
    ensures Rfc.Compress(Rfc.Regs(0x67452301, 0xefcdab89, 0x98badcfe, 0x10325476), X) == Rfc.Regs(0x03bc33a3, 0x1461a01f, 0xa06819e4, 0xe43fdbf3)
  {
    WorldVariantR1(X);
    WorldVariantR2(X);
    WorldVariantR3(X);
    WorldVariantR4(X);
  }

  lemma WorldCore()
    ensures VariantCore(CV.WorldText) == Rfc.Regs(0x03bc33a3, 0x1461a01f, 0xa06819e4, 0xe43fdbf3)
  {
    WorldPacked();
    WorldMarked();
    CV.HashFromOne(Rfc.Init, VariantMarked([0x6c726f77, 0x00000064], 5));
    WorldVariantCompress(Block(VariantMarked([0x6c726f77, 0x00000064], 5), 0));
  }

  lemma WorldLane00()
    ensures BigEndianLane(0x03bc33a3, 0) == 0x03
  {
  }

  lemma WorldLane01()
    ensures BigEndianLane(0x03bc33a3, 1) == 0xbc
  {
  }

  lemma WorldLane02()
    ensures BigEndianLane(0x03bc33a3, 2) == 0x33
  {
  }

  lemma WorldLane03()
    ensures BigEndianLane(0x03bc33a3, 3) == 0xa3
  {
  }

  lemma WorldDigits0()
    ensures Rfc.HexByte(0x03) + Rfc.HexByte(0xbc) + Rfc.HexByte(0x33) + Rfc.HexByte(0xa3) == "03bc33a3"
  {
  }

  /** Register 0 of the final registers, as lines 51-52 render it. */
  lemma WorldGroup0()
    ensures HexGroup(RegsWords(Rfc.Regs(0x03bc33a3, 0x1461a01f, 0xa06819e4, 0xe43fdbf3)), 0) == "03bc33a3"
  {
    assert At(RegsWords(Rfc.Regs(0x03bc33a3, 0x1461a01f, 0xa06819e4, 0xe43fdbf3)), 0) == 0x03bc33a3;
    HexGroupWord(RegsWords(Rfc.Regs(0x03bc33a3, 0x1461a01f, 0xa06819e4, 0xe43fdbf3)), 0);
    WorldLane00();
    WorldLane01();
    WorldLane02();
    WorldLane03();
    WorldDigits0();
  }

  lemma WorldLane10()
    ensures BigEndianLane(0x1461a01f, 0) == 0x14
  {
  }

  lemma WorldLane11()
    ensures BigEndianLane(0x1461a01f, 1) == 0x61
  {
  }

  lemma WorldLane12()
    ensures BigEndianLane(0x1461a01f, 2) == 0xa0
  {
  }

  lemma WorldLane13()
    ensures BigEndianLane(0x1461a01f, 3) == 0x1f
  {
  }

  lemma WorldDigits1()
    ensures Rfc.HexByte(0x14) + Rfc.HexByte(0x61) + Rfc.HexByte(0xa0) + Rfc.HexByte(0x1f) == "1461a01f"
  {
  }

  /** Register 1 of the final registers, as lines 51-52 render it. */
  lemma WorldGroup1()
    ensures HexGroup(RegsWords(Rfc.Regs(0x03bc33a3, 0x1461a01f, 0xa06819e4, 0xe43fdbf3)), 4) == "1461a01f"
  {
    assert At(RegsWords(Rfc.Regs(0x03bc33a3, 0x1461a01f, 0xa06819e4, 0xe43fdbf3)), 1) == 0x1461a01f;
    HexGroupWord(RegsWords(Rfc.Regs(0x03bc33a3, 0x1461a01f, 0xa06819e4, 0xe43fdbf3)), 1);
    WorldLane10();
    WorldLane11();
    WorldLane12();
    WorldLane13();
    WorldDigits1();
  }

  lemma WorldLane20()
    ensures BigEndianLane(0xa06819e4, 0) == 0xa0
  {
  }

  lemma WorldLane21()
    ensures BigEndianLane(0xa06819e4, 1) == 0x68
  {
  }

  lemma WorldLane22()
    ensures BigEndianLane(0xa06819e4, 2) == 0x19
  {
  }

  lemma WorldLane23()
    ensures BigEndianLane(0xa06819e4, 3) == 0xe4
  {
  }

  lemma WorldDigits2()
    ensures Rfc.HexByte(0xa0) + Rfc.HexByte(0x68) + Rfc.HexByte(0x19) + Rfc.HexByte(0xe4) == "a06819e4"
  {
  }

  /** Register 2 of the final registers, as lines 51-52 render it. */
  lemma WorldGroup2()
    ensures HexGroup(RegsWords(Rfc.Regs(0x03bc33a3, 0x1461a01f, 0xa06819e4, 0xe43fdbf3)), 8) == "a06819e4"
  {
    assert At(RegsWords(Rfc.Regs(0x03bc33a3, 0x1461a01f, 0xa06819e4, 0xe43fdbf3)), 2) == 0xa06819e4;
    HexGroupWord(RegsWords(Rfc.Regs(0x03bc33a3, 0x1461a01f, 0xa06819e4, 0xe43fdbf3)), 2);
    WorldLane20();
    WorldLane21();
    WorldLane22();
    WorldLane23();
    WorldDigits2();
  }

  lemma WorldLane30()
    ensures BigEndianLane(0xe43fdbf3, 0) == 0xe4
  {
  }

  lemma WorldLane31()
    ensures BigEndianLane(0xe43fdbf3, 1) == 0x3f
  {
  }

  lemma WorldLane32()
    ensures BigEndianLane(0xe43fdbf3, 2) == 0xdb
  {
  }

  lemma WorldLane33()
    ensures BigEndianLane(0xe43fdbf3, 3) == 0xf3
  {
  }

  lemma WorldDigits3()
    ensures Rfc.HexByte(0xe4) + Rfc.HexByte(0x3f) + Rfc.HexByte(0xdb) + Rfc.HexByte(0xf3) == "e43fdbf3"
  {
  }

  /** Register 3 of the final registers, as lines 51-52 render it. */
  lemma WorldGroup3()
    ensures HexGroup(RegsWords(Rfc.Regs(0x03bc33a3, 0x1461a01f, 0xa06819e4, 0xe43fdbf3)), 12) == "e43fdbf3"
  {
    assert At(RegsWords(Rfc.Regs(0x03bc33a3, 0x1461a01f, 0xa06819e4, 0xe43fdbf3)), 3) == 0xe43fdbf3;
    HexGroupWord(RegsWords(Rfc.Regs(0x03bc33a3, 0x1461a01f, 0xa06819e4, 0xe43fdbf3)), 3);
    WorldLane30();
    WorldLane31();
    WorldLane32();
    WorldLane33();
    WorldDigits3();
  }

  lemma WorldVariantText()
    ensures "03bc33a3" + "1461a01f" + "a06819e4" + "e43fdbf3" == "03bc33a31461a01fa06819e4e43fdbf3"
  {
  }

  /** md5("world") as test-plugin.js computes it. */
  lemma WorldVariant()
    ensures VariantMd5(CV.WorldText) == "03bc33a31461a01fa06819e4e43fdbf3"
  {
    WorldCore();
    OutputHex(RegsWords(Rfc.Regs(0x03bc33a3, 0x1461a01f, 0xa06819e4, 0xe43fdbf3)));
    WorldGroup0();
    WorldGroup1();
    WorldGroup2();
    WorldGroup3();
    WorldVariantText();
  }

  /** The expectation of line 164 fails for the variant and holds for the
      content script's md5. */
  lemma WorldExpectation()
    ensures VariantMd5(CV.WorldText) != "7d793037a0760186574b0282f2f435e7"
    ensures Md5AsWritten(CV.WorldText) == "7d793037a0760186574b0282f2f435e7"
  {
    WorldVariant();
    CV.WorldAnswer();
  }

  // ---------------------------------------------------------------------
  // testMD5 and testAPISignature (lines 159-186).
  // ---------------------------------------------------------------------

  /** One entry of the table of lines 162-165. */
  datatype TestCase = TestCase(input: seq<Unit>, expected: string)

  const Md5Cases: seq<TestCase> := [
    TestCase(CV.HelloText, "5d41402abc4b2a76b9719d911017c592"),
    TestCase(CV.WorldText, "7d793037a0760186574b0282f2f435e7")
  ]

  /** Every expectation of the table is the content script's md5 of its
      input, and none is the variant's. */
  lemma Md5CasesExpectations()
    ensures forall k :: 0 <= k < |Md5Cases| ==> Md5AsWritten(Md5Cases[k].input) == Md5Cases[k].expected
    ensures forall k :: 0 <= k < |Md5Cases| ==> VariantMd5(Md5Cases[k].input) != Md5Cases[k].expected
  {
    forall k | 0 <= k < |Md5Cases|
      ensures Md5AsWritten(Md5Cases[k].input) == Md5Cases[k].expected
      ensures VariantMd5(Md5Cases[k].input) != Md5Cases[k].expected
    {
      Md5CaseExpectation(k);
    }
  }

  lemma Md5CaseExpectation(k: nat)
    requires k < |Md5Cases|
    ensures Md5AsWritten(Md5Cases[k].input) == Md5Cases[k].expected
    ensures VariantMd5(Md5Cases[k].input) != Md5Cases[k].expected
  {
    assert |Md5Cases| == 2;
    if k == 0 {
      assert Md5Cases[0] == TestCase(CV.HelloText, "5d41402abc4b2a76b9719d911017c592");
      HelloExpectation();
    } else {
      assert Md5Cases[1] == TestCase(CV.WorldText, "7d793037a0760186574b0282f2f435e7");
      WorldExpectation();
    }
  }

  /** testMD5: counts the cases whose md5 matches the expectation and
      reports whether all did. With the variant md5 none does. */
  method TestMd5() returns (ok: bool)
    ensures !ok
  {
    Md5CasesExpectations();
    var passed := 0;
    var i := 0;
    while i < |Md5Cases|
      invariant i <= |Md5Cases| && passed == 0
    {
      var result := TestPluginMd5.Md5(Md5Cases[i].input);
      var success := result == Md5Cases[i].expected;
      if success {
        passed := passed + 1;
      }
      i := i + 1;
    }
    ok := passed == |Md5Cases|;
  }

  const TestAppId: seq<Unit> := [0x74, 0x65, 0x73, 0x74, 0x5f, 0x61, 0x70, 0x70, 0x5f, 0x69, 0x64]
  const TestSalt: seq<Unit> := [0x31, 0x32, 0x33, 0x34, 0x35, 0x36, 0x37, 0x38, 0x39, 0x30]
  const TestAppKey: seq<Unit> := [0x74, 0x65, 0x73, 0x74, 0x5f, 0x61, 0x70, 0x70, 0x5f, 0x6b, 0x65, 0x79]

  /** testAPISignature: the signature of line 181 is truthy (non-empty), 32
      characters long and matches /^[a-f0-9]+$/. */
  method TestApiSignature() returns (isValid: bool)
    ensures isValid
  {
    var signature := TestPluginMd5.GenerateSign(CV.HelloText, TestAppId, TestSalt, TestAppKey);
    isValid := |signature| > 0 && |signature| == 32 && Rfc.IsLowerHex(signature);
  }

}
