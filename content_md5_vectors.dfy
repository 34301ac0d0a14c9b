/**
 * Known answers of the content script's md5 (src/content.js:203-368), and two
 * inputs on which md5 as written is not the RFC 1321 digest of the bytes it
 * hashes, while md5 with the encoded length is.
 */
module ContentMd5Vectors {
  import Rfc = Rfc1321
  import V = Md5Vectors
  import opened ContentMd5
  import opened ContentMd5Rfc

  /** The rendered digest of known registers. */
  lemma DigestHexOf(r: Rfc.Regs, s0: string, s1: string, s2: string, s3: string)
    requires Rfc.Hex(Rfc.WordBytes(r.a)) == s0 && Rfc.Hex(Rfc.WordBytes(r.b)) == s1
    requires Rfc.Hex(Rfc.WordBytes(r.c)) == s2 && Rfc.Hex(Rfc.WordBytes(r.d)) == s3
    ensures DigestHex(r) == s0 + s1 + s2 + s3
  {
    Rfc.HexOfRegs(r);
  }

  /** An array of at most 16 words is one block: the loop runs once. */
  lemma HashFromOne(st: Rfc.Regs, w: seq<Word>)
    requires 0 < |w| <= 16
    ensures HashFrom(st, w, 0) == Rfc.Compress(st, Block(w, 0))
  {
    assert HashFrom(Rfc.Compress(st, Block(w, 0)), w, 16) == Rfc.Compress(st, Block(w, 0));
  }

  const EmptyText: seq<Unit> := []

  /** md5("") is the digest of RFC 1321. */
  lemma EmptyAnswer()
    ensures Md5AsWritten(EmptyText) == "d41d8cd98f00b204e9800998ecf8427e"
  {
    AsciiMd5IsRfc(EmptyText);
    EmptyBytes();
    V.EmptyDigest();
  }

  lemma EmptyBytes()
    ensures Bytes(EmptyText) == V.EmptyMessage
  {
  }

  const HelloText: seq<Unit> := [0x68, 0x65, 0x6c, 0x6c, 0x6f]

  /** md5("hello") is the digest of RFC 1321. */
  lemma HelloAnswer()
    ensures Md5AsWritten(HelloText) == "5d41402abc4b2a76b9719d911017c592"
  {
    AsciiMd5IsRfc(HelloText);
    HelloBytes();
    V.HelloDigest();
  }

  lemma HelloBytes()
    ensures Bytes(HelloText) == V.HelloMessage
  {
  }

  const WorldText: seq<Unit> := [0x77, 0x6f, 0x72, 0x6c, 0x64]

  /** md5("world") is the digest of RFC 1321. */
  lemma WorldAnswer()
    ensures Md5AsWritten(WorldText) == "7d793037a0760186574b0282f2f435e7"
  {
    AsciiMd5IsRfc(WorldText);
    WorldBytes();
    V.WorldDigest();
  }

  lemma WorldBytes()
    ensures Bytes(WorldText) == V.WorldMessage
  {
  }

  /** U+4E2D, one code unit that UTF-8 encodes as three bytes. */
  const Zhong: seq<Unit> := [0x4E2D]

  lemma ZhongEncoded()
    ensures Encoded(Zhong) == [0xE4, 0xB8, 0xAD]
  {
    assert ReplaceCrlf(Zhong) == Zhong;
    EncodeUnitCases(0x4E2D);
    assert Utf8(Zhong) == Utf8([]) + EncodeUnit(0x4E2D);
  }

  lemma ZhongPacked()
    ensures Packed([0xE4, 0xB8, 0xAD]) == [0x00adb8e4]
  {
    assert PackAt([0xE4, 0xB8, 0xAD], 0) == 0x00adb8e4;
  }

  /** The word array after the marker and length writes of coreMD5. */
  lemma ZhongMarked()
    ensures |Marked([0x00adb8e4], 8)| == 15
    ensures At(Marked([0x00adb8e4], 8), 0) == 0x00adb8e4 && At(Marked([0x00adb8e4], 8), 14) == 0x00000008
    ensures forall k: nat :: k < 16 && k != 0 && k != 14 ==> At(Marked([0x00adb8e4], 8), k) == 0
  {
    assert MarkerIndex(8) == 0;
    assert Marker(8) == 0x00008000;
    assert LengthIndex(8) == 14;
    assert Store([0x00adb8e4], 0, 0x00adb8e4 | 0x00008000) == [0x00adb8e4];
  }

  lemma ZhongWrittenR1L1(X: seq<Word>)
    requires |X| == 16
    requires X[0] == 0x00adb8e4 && X[1] == 0x00000000 && X[2] == 0x00000000 && X[3] == 0x00000000
    ensures Rfc.Run(Rfc.Round1, Rfc.Regs(0x67452301, 0xefcdab89, 0x98badcfe, 0x10325476), X, Rfc.Round1Ops, 0) == Rfc.Run(Rfc.Round1, Rfc.Regs(0xfbfc5975, 0x02fdfa62, 0x13d72930, 0x8591d7c1), X, Rfc.Round1Ops, 4)
  {
    Rfc.Round1Line1(0x67452301, 0xefcdab89, 0x98badcfe, 0x10325476, X, 0xfbfc5975, 0x8591d7c1, 0x13d72930, 0x02fdfa62);
  }

  lemma ZhongWrittenR1L2(X: seq<Word>)
    requires |X| == 16
    requires X[4] == 0x00000000 && X[5] == 0x00000000 && X[6] == 0x00000000 && X[7] == 0x00000000
    ensures Rfc.Run(Rfc.Round1, Rfc.Regs(0xfbfc5975, 0x02fdfa62, 0x13d72930, 0x8591d7c1), X, Rfc.Round1Ops, 4) == Rfc.Run(Rfc.Round1, Rfc.Regs(0xa9c95d1e, 0x6cb872e1, 0xccae06e7, 0x3b2a3b1d), X, Rfc.Round1Ops, 8)
  {
    Rfc.Round1Line2(0xfbfc5975, 0x02fdfa62, 0x13d72930, 0x8591d7c1, X, 0xa9c95d1e, 0x3b2a3b1d, 0xccae06e7, 0x6cb872e1);
  }

  lemma ZhongWrittenR1L3(X: seq<Word>)
    requires |X| == 16
    requires X[8] == 0x00000000 && X[9] == 0x00000000 && X[10] == 0x00000000 && X[11] == 0x00000000
    ensures Rfc.Run(Rfc.Round1, Rfc.Regs(0xa9c95d1e, 0x6cb872e1, 0xccae06e7, 0x3b2a3b1d), X, Rfc.Round1Ops, 8) == Rfc.Run(Rfc.Round1, Rfc.Regs(0xe6b96c9a, 0xa98d8709, 0x5e97f297, 0xc0147fcc), X, Rfc.Round1Ops, 12)
  {
    Rfc.Round1Line3(0xa9c95d1e, 0x6cb872e1, 0xccae06e7, 0x3b2a3b1d, X, 0xe6b96c9a, 0xc0147fcc, 0x5e97f297, 0xa98d8709);
  }

  lemma ZhongWrittenR1L4(X: seq<Word>)
    requires |X| == 16
    requires X[12] == 0x00000000 && X[13] == 0x00000000 && X[14] == 0x00000008 && X[15] == 0x00000000
    ensures Rfc.Run(Rfc.Round1, Rfc.Regs(0xe6b96c9a, 0xa98d8709, 0x5e97f297, 0xc0147fcc), X, Rfc.Round1Ops, 12) == Rfc.Run(Rfc.Round1, Rfc.Regs(0x1949c7d6, 0x4c5d89b3, 0xdf2fe55f, 0xe3cfc8aa), X, Rfc.Round1Ops, 16)
  {
    Rfc.Round1Line4(0xe6b96c9a, 0xa98d8709, 0x5e97f297, 0xc0147fcc, X, 0x1949c7d6, 0xe3cfc8aa, 0xdf2fe55f, 0x4c5d89b3);
  }

  lemma ZhongWrittenR1(X: seq<Word>)
    requires |X| == 16
    requires X[0] == 0x00adb8e4 && X[1] == 0x00000000 && X[2] == 0x00000000 && X[3] == 0x00000000
    requires X[4] == 0x00000000 && X[5] == 0x00000000 && X[6] == 0x00000000 && X[7] == 0x00000000
    requires X[8] == 0x00000000 && X[9] == 0x00000000 && X[10] == 0x00000000 && X[11] == 0x00000000
    requires X[12] == 0x00000000 && X[13] == 0x00000000 && X[14] == 0x00000008 && X[15] == 0x00000000
    ensures Rfc.Run(Rfc.Round1, Rfc.Regs(0x67452301, 0xefcdab89, 0x98badcfe, 0x10325476), X, Rfc.Round1Ops, 0) == Rfc.Regs(0x1949c7d6, 0x4c5d89b3, 0xdf2fe55f, 0xe3cfc8aa)
  {
    ZhongWrittenR1L1(X);
    ZhongWrittenR1L2(X);
    ZhongWrittenR1L3(X);
    ZhongWrittenR1L4(X);
  }

  lemma ZhongWrittenR2L1(X: seq<Word>)
    requires |X| == 16
    requires X[0] == 0x00adb8e4 && X[1] == 0x00000000 && X[6] == 0x00000000 && X[11] == 0x00000000
    ensures Rfc.Run(Rfc.Round2, Rfc.Regs(0x1949c7d6, 0x4c5d89b3, 0xdf2fe55f, 0xe3cfc8aa), X, Rfc.Round2Ops, 0) == Rfc.Run(Rfc.Round2, Rfc.Regs(0xc710efa0, 0x66d0d415, 0x335ca8aa, 0x89e40476), X, Rfc.Round2Ops, 4)
  {
    Rfc.Round2Line1(0x1949c7d6, 0x4c5d89b3, 0xdf2fe55f, 0xe3cfc8aa, X, 0xc710efa0, 0x89e40476, 0x335ca8aa, 0x66d0d415);
  }

  lemma ZhongWrittenR2L2(X: seq<Word>)
    requires |X| == 16
    requires X[4] == 0x00000000 && X[5] == 0x00000000 && X[10] == 0x00000000 && X[15] == 0x00000000
    ensures Rfc.Run(Rfc.Round2, Rfc.Regs(0xc710efa0, 0x66d0d415, 0x335ca8aa, 0x89e40476), X, Rfc.Round2Ops, 4) == Rfc.Run(Rfc.Round2, Rfc.Regs(0x69e6674f, 0x592cb349, 0x73a18efb, 0x43003932), X, Rfc.Round2Ops, 8)
  {
    Rfc.Round2Line2(0xc710efa0, 0x66d0d415, 0x335ca8aa, 0x89e40476, X, 0x69e6674f, 0x43003932, 0x73a18efb, 0x592cb349);
  }

  lemma ZhongWrittenR2L3(X: seq<Word>)
    requires |X| == 16
    requires X[3] == 0x00000000 && X[8] == 0x00000000 && X[9] == 0x00000000 && X[14] == 0x00000008
    ensures Rfc.Run(Rfc.Round2, Rfc.Regs(0x69e6674f, 0x592cb349, 0x73a18efb, 0x43003932), X, Rfc.Round2Ops, 8) == Rfc.Run(Rfc.Round2, Rfc.Regs(0x066a5328, 0xbeb42f2f, 0x254d7136, 0xcd52c348), X, Rfc.Round2Ops, 12)
  {
    Rfc.Round2Line3(0x69e6674f, 0x592cb349, 0x73a18efb, 0x43003932, X, 0x066a5328, 0xcd52c348, 0x254d7136, 0xbeb42f2f);
  }

  lemma ZhongWrittenR2L4(X: seq<Word>)
    requires |X| == 16
    requires X[2] == 0x00000000 && X[7] == 0x00000000 && X[12] == 0x00000000 && X[13] == 0x00000000
    ensures Rfc.Run(Rfc.Round2, Rfc.Regs(0x066a5328, 0xbeb42f2f, 0x254d7136, 0xcd52c348), X, Rfc.Round2Ops, 12) == Rfc.Run(Rfc.Round2, Rfc.Regs(0x4c221c9a, 0xcceb6177, 0xd31f92a3, 0x312cd36b), X, Rfc.Round2Ops, 16)
  {
    Rfc.Round2Line4(0x066a5328, 0xbeb42f2f, 0x254d7136, 0xcd52c348, X, 0x4c221c9a, 0x312cd36b, 0xd31f92a3, 0xcceb6177);
  }

  lemma ZhongWrittenR2(X: seq<Word>)
    requires |X| == 16
    requires X[0] == 0x00adb8e4 && X[1] == 0x00000000 && X[2] == 0x00000000 && X[3] == 0x00000000
    requires X[4] == 0x00000000 && X[5] == 0x00000000 && X[6] == 0x00000000 && X[7] == 0x00000000
    requires X[8] == 0x00000000 && X[9] == 0x00000000 && X[10] == 0x00000000 && X[11] == 0x00000000
    requires X[12] == 0x00000000 && X[13] == 0x00000000 && X[14] == 0x00000008 && X[15] == 0x00000000
    ensures Rfc.Run(Rfc.Round2, Rfc.Regs(0x1949c7d6, 0x4c5d89b3, 0xdf2fe55f, 0xe3cfc8aa), X, Rfc.Round2Ops, 0) == Rfc.Regs(0x4c221c9a, 0xcceb6177, 0xd31f92a3, 0x312cd36b)
  {
    ZhongWrittenR2L1(X);
    ZhongWrittenR2L2(X);
    ZhongWrittenR2L3(X);
    ZhongWrittenR2L4(X);
  }

  lemma ZhongWrittenR3L1(X: seq<Word>)
    requires |X| == 16
    requires X[5] == 0x00000000 && X[8] == 0x00000000 && X[11] == 0x00000000 && X[14] == 0x00000008
    ensures Rfc.Run(Rfc.Round3, Rfc.Regs(0x4c221c9a, 0xcceb6177, 0xd31f92a3, 0x312cd36b), X, Rfc.Round3Ops, 0) == Rfc.Run(Rfc.Round3, Rfc.Regs(0x7c32cb2e, 0xe457cfdd, 0xee57515e, 0xa449fc11), X, Rfc.Round3Ops, 4)
  {
    Rfc.Round3Line1(0x4c221c9a, 0xcceb6177, 0xd31f92a3, 0x312cd36b, X, 0x7c32cb2e, 0xa449fc11, 0xee57515e, 0xe457cfdd);
  }

  lemma ZhongWrittenR3L2(X: seq<Word>)
    requires |X| == 16
    requires X[1] == 0x00000000 && X[4] == 0x00000000 && X[7] == 0x00000000 && X[10] == 0x00000000
    ensures Rfc.Run(Rfc.Round3, Rfc.Regs(0x7c32cb2e, 0xe457cfdd, 0xee57515e, 0xa449fc11), X, Rfc.Round3Ops, 4) == Rfc.Run(Rfc.Round3, Rfc.Regs(0xd8095029, 0x085e165c, 0xf368abcf, 0x6cdc763a), X, Rfc.Round3Ops, 8)
  {
    Rfc.Round3Line2(0x7c32cb2e, 0xe457cfdd, 0xee57515e, 0xa449fc11, X, 0xd8095029, 0x6cdc763a, 0xf368abcf, 0x085e165c);
  }

  lemma ZhongWrittenR3L3(X: seq<Word>)
    requires |X| == 16
    requires X[0] == 0x00adb8e4 && X[3] == 0x00000000 && X[6] == 0x00000000 && X[13] == 0x00000000
    ensures Rfc.Run(Rfc.Round3, Rfc.Regs(0xd8095029, 0x085e165c, 0xf368abcf, 0x6cdc763a), X, Rfc.Round3Ops, 8) == Rfc.Run(Rfc.Round3, Rfc.Regs(0x9157bfe5, 0xce43c488, 0x6cb86b7e, 0xf42435f9), X, Rfc.Round3Ops, 12)
  {
    Rfc.Round3Line3(0xd8095029, 0x085e165c, 0xf368abcf, 0x6cdc763a, X, 0x9157bfe5, 0xf42435f9, 0x6cb86b7e, 0xce43c488);
  }

  lemma ZhongWrittenR3L4(X: seq<Word>)
    requires |X| == 16
    requires X[2] == 0x00000000 && X[9] == 0x00000000 && X[12] == 0x00000000 && X[15] == 0x00000000
    ensures Rfc.Run(Rfc.Round3, Rfc.Regs(0x9157bfe5, 0xce43c488, 0x6cb86b7e, 0xf42435f9), X, Rfc.Round3Ops, 12) == Rfc.Run(Rfc.Round3, Rfc.Regs(0xef066764, 0xb4ee8c0f, 0x0f876f92, 0xdbc9e8ab), X, Rfc.Round3Ops, 16)
  {
    Rfc.Round3Line4(0x9157bfe5, 0xce43c488, 0x6cb86b7e, 0xf42435f9, X, 0xef066764, 0xdbc9e8ab, 0x0f876f92, 0xb4ee8c0f);
  }

  lemma ZhongWrittenR3(X: seq<Word>)
    requires |X| == 16
    requires X[0] == 0x00adb8e4 && X[1] == 0x00000000 && X[2] == 0x00000000 && X[3] == 0x00000000
    requires X[4] == 0x00000000 && X[5] == 0x00000000 && X[6] == 0x00000000 && X[7] == 0x00000000
    requires X[8] == 0x00000000 && X[9] == 0x00000000 && X[10] == 0x00000000 && X[11] == 0x00000000
    requires X[12] == 0x00000000 && X[13] == 0x00000000 && X[14] == 0x00000008 && X[15] == 0x00000000
    ensures Rfc.Run(Rfc.Round3, Rfc.Regs(0x4c221c9a, 0xcceb6177, 0xd31f92a3, 0x312cd36b), X, Rfc.Round3Ops, 0) == Rfc.Regs(0xef066764, 0xb4ee8c0f, 0x0f876f92, 0xdbc9e8ab)
  {
    ZhongWrittenR3L1(X);
    ZhongWrittenR3L2(X);
    ZhongWrittenR3L3(X);
    ZhongWrittenR3L4(X);
  }

  lemma ZhongWrittenR4L1(X: seq<Word>)
    requires |X| == 16
    requires X[0] == 0x00adb8e4 && X[5] == 0x00000000 && X[7] == 0x00000000 && X[14] == 0x00000008
    ensures Rfc.Run(Rfc.Round4, Rfc.Regs(0xef066764, 0xb4ee8c0f, 0x0f876f92, 0xdbc9e8ab), X, Rfc.Round4Ops, 0) == Rfc.Run(Rfc.Round4, Rfc.Regs(0x8abb6276, 0x46bc2a50, 0x8cbcc4ad, 0xb4562c2a), X, Rfc.Round4Ops, 4)
  {
    Rfc.Round4Line1(0xef066764, 0xb4ee8c0f, 0x0f876f92, 0xdbc9e8ab, X, 0x8abb6276, 0xb4562c2a, 0x8cbcc4ad, 0x46bc2a50);
  }

  lemma ZhongWrittenR4L2(X: seq<Word>)
    requires |X| == 16
    requires X[1] == 0x00000000 && X[3] == 0x00000000 && X[10] == 0x00000000 && X[12] == 0x00000000
    ensures Rfc.Run(Rfc.Round4, Rfc.Regs(0x8abb6276, 0x46bc2a50, 0x8cbcc4ad, 0xb4562c2a), X, Rfc.Round4Ops, 4) == Rfc.Run(Rfc.Round4, Rfc.Regs(0x0cbb16bc, 0x5fd5dc22, 0x73135faa, 0xb4f4c0ae), X, Rfc.Round4Ops, 8)
  {
    Rfc.Round4Line2(0x8abb6276, 0x46bc2a50, 0x8cbcc4ad, 0xb4562c2a, X, 0x0cbb16bc, 0xb4f4c0ae, 0x73135faa, 0x5fd5dc22);
  }

  lemma ZhongWrittenR4L3(X: seq<Word>)
    requires |X| == 16
    requires X[6] == 0x00000000 && X[8] == 0x00000000 && X[13] == 0x00000000 && X[15] == 0x00000000
    ensures Rfc.Run(Rfc.Round4, Rfc.Regs(0x0cbb16bc, 0x5fd5dc22, 0x73135faa, 0xb4f4c0ae), X, Rfc.Round4Ops, 8) == Rfc.Run(Rfc.Round4, Rfc.Regs(0xabe3554c, 0x28817a0d, 0xebcf1f49, 0x1b278bd9), X, Rfc.Round4Ops, 12)
  {
    Rfc.Round4Line3(0x0cbb16bc, 0x5fd5dc22, 0x73135faa, 0xb4f4c0ae, X, 0xabe3554c, 0x1b278bd9, 0xebcf1f49, 0x28817a0d);
  }

  lemma ZhongWrittenR4L4(X: seq<Word>)
    requires |X| == 16
    requires X[2] == 0x00000000 && X[4] == 0x00000000 && X[9] == 0x00000000 && X[11] == 0x00000000
    ensures Rfc.Run(Rfc.Round4, Rfc.Regs(0xabe3554c, 0x28817a0d, 0xebcf1f49, 0x1b278bd9), X, Rfc.Round4Ops, 12) == Rfc.Run(Rfc.Round4, Rfc.Regs(0xbbcec737, 0x49e57d35, 0x52a0aaa2, 0x443de8f6), X, Rfc.Round4Ops, 16)
  {
    Rfc.Round4Line4(0xabe3554c, 0x28817a0d, 0xebcf1f49, 0x1b278bd9, X, 0xbbcec737, 0x443de8f6, 0x52a0aaa2, 0x49e57d35);
  }

  lemma ZhongWrittenR4(X: seq<Word>)
    requires |X| == 16
    requires X[0] == 0x00adb8e4 && X[1] == 0x00000000 && X[2] == 0x00000000 && X[3] == 0x00000000
    requires X[4] == 0x00000000 && X[5] == 0x00000000 && X[6] == 0x00000000 && X[7] == 0x00000000
    requires X[8] == 0x00000000 && X[9] == 0x00000000 && X[10] == 0x00000000 && X[11] == 0x00000000
    requires X[12] == 0x00000000 && X[13] == 0x00000000 && X[14] == 0x00000008 && X[15] == 0x00000000
    ensures Rfc.Run(Rfc.Round4, Rfc.Regs(0xef066764, 0xb4ee8c0f, 0x0f876f92, 0xdbc9e8ab), X, Rfc.Round4Ops, 0) == Rfc.Regs(0xbbcec737, 0x49e57d35, 0x52a0aaa2, 0x443de8f6)
  {
    ZhongWrittenR4L1(X);
    ZhongWrittenR4L2(X);
    ZhongWrittenR4L3(X);
    ZhongWrittenR4L4(X);
  }

  lemma ZhongWrittenCompress(X: seq<Word>)
    requires |X| == 16
    requires X[0] == 0x00adb8e4 && X[1] == 0x00000000 && X[2] == 0x00000000 && X[3] == 0x00000000
    requires X[4] == 0x00000000 && X[5] == 0x00000000 && X[6] == 0x00000000 && X[7] == 0x00000000
    requires X[8] == 0x00000000 && X[9] == 0x00000000 && X[10] == 0x00000000 && X[11] == 0x00000000
    requires X[12] == 0x00000000 && X[13] == 0x00000000 && X[14] == 0x00000008 && X[15] == 0x00000000
    ensures Rfc.Compress(Rfc.Regs(0x67452301, 0xefcdab89, 0x98badcfe, 0x10325476), X) == Rfc.Regs(0x2313ea38, 0x39b328be, 0xeb5b87a0, 0x54703d6c)
  {
    ZhongWrittenR1(X);
    ZhongWrittenR2(X);
    ZhongWrittenR3(X);
    ZhongWrittenR4(X);
  }

  lemma ZhongCore()
    ensures Core(Packed(Encoded(Zhong)), |Zhong| * 8) == Rfc.Regs(0x2313ea38, 0x39b328be, 0xeb5b87a0, 0x54703d6c)
  {
    ZhongEncoded();
    ZhongPacked();
    ZhongMarked();
    HashFromOne(Rfc.Init, Marked([0x00adb8e4], 8));
    ZhongWrittenCompress(Block(Marked([0x00adb8e4], 8), 0));
  }

  lemma ZhongWrittenHex0()
    ensures Rfc.Hex(Rfc.WordBytes(0x2313ea38)) == "38ea1323"
  {
    Rfc.HexOfWordBytes(0x2313ea38);
  }

  lemma ZhongWrittenHex1()
    ensures Rfc.Hex(Rfc.WordBytes(0x39b328be)) == "be28b339"
  {
    Rfc.HexOfWordBytes(0x39b328be);
  }

  lemma ZhongWrittenHex2()
    ensures Rfc.Hex(Rfc.WordBytes(0xeb5b87a0)) == "a0875beb"
  {
    Rfc.HexOfWordBytes(0xeb5b87a0);
  }

  lemma ZhongWrittenHex3()
    ensures Rfc.Hex(Rfc.WordBytes(0x54703d6c)) == "6c3d7054"
  {
    Rfc.HexOfWordBytes(0x54703d6c);
  }

  lemma ZhongWrittenText()
    ensures "38ea1323" + "be28b339" + "a0875beb" + "6c3d7054" == "38ea1323be28b339a0875beb6c3d7054"
  {
  }

  lemma ZhongAsWritten()
    ensures Md5AsWritten(Zhong) == "38ea1323be28b339a0875beb6c3d7054"
  {
    ZhongCore();
    ZhongWrittenHex0();
    ZhongWrittenHex1();
    ZhongWrittenHex2();
    ZhongWrittenHex3();
    DigestHexOf(Rfc.Regs(0x2313ea38, 0x39b328be, 0xeb5b87a0, 0x54703d6c), "38ea1323", "be28b339", "a0875beb", "6c3d7054");
    ZhongWrittenText();
  }

  lemma ZhongBytes()
    ensures Bytes([0xE4, 0xB8, 0xAD]) == V.ZhongMessage
  {
  }

  /** md5 with the encoded length, on the same text. */
  lemma ZhongFixed()
    ensures Md5Encoded(Zhong) == "aed1dfbc31703955e64806b799b67645"
  {
    ZhongEncoded();
    Md5EncodedIsRfc(Zhong);
    ZhongBytes();
    V.ZhongDigest();
  }

  /** md5 as written is not the RFC 1321 digest of the bytes it hashes;
      md5 with the encoded length is. */
  lemma ZhongDiffers()
    ensures Md5AsWritten(Zhong) != Rfc.Md5Hex(Bytes(Encoded(Zhong)))
    ensures Md5Encoded(Zhong) == Rfc.Md5Hex(Bytes(Encoded(Zhong)))
  {
    ZhongAsWritten();
    ZhongFixed();
    ZhongEncoded();
    Md5EncodedIsRfc(Zhong);
  }

  /** A CR LF pair, which utf8Encode collapses to one LF. */
  const CrLf: seq<Unit> := [0x0d, 0x0a]

  lemma CrLfEncoded()
    ensures Encoded(CrLf) == [0x0A]
  {
    assert ReplaceCrlf(CrLf) == [LF] + ReplaceCrlf([]);
    EncodeUnitCases(LF);
    assert Utf8([LF]) == Utf8([]) + EncodeUnit(LF);
  }

  lemma CrLfPacked()
    ensures Packed([0x0A]) == [0x0000000a]
  {
    assert PackAt([0x0A], 0) == 0x0000000a;
  }

  /** The word array after the marker and length writes of coreMD5. */
  lemma CrLfMarked()
    ensures |Marked([0x0000000a], 16)| == 15
    ensures At(Marked([0x0000000a], 16), 0) == 0x0080000a && At(Marked([0x0000000a], 16), 14) == 0x00000010
    ensures forall k: nat :: k < 16 && k != 0 && k != 14 ==> At(Marked([0x0000000a], 16), k) == 0
  {
    assert MarkerIndex(16) == 0;
    assert Marker(16) == 0x00800000;
    assert LengthIndex(16) == 14;
    assert At([0x0000000a], 0) == 0x0000000a;
    assert (16 % 0x1_0000_0000) as Word == 0x00000010;
    var x1 := Store([0x0000000a], 0, 0x0000000a | 0x00800000);
    assert x1 == [0x0080000a];
    assert Marked([0x0000000a], 16) == Store(x1, 14, 0x00000010);
  }

  lemma CrLfWrittenR1L1(X: seq<Word>)
    requires |X| == 16
    requires X[0] == 0x0080000a && X[1] == 0x00000000 && X[2] == 0x00000000 && X[3] == 0x00000000
    ensures Rfc.Run(Rfc.Round1, Rfc.Regs(0x67452301, 0xefcdab89, 0x98badcfe, 0x10325476), X, Rfc.Round1Ops, 0) == Rfc.Run(Rfc.Round1, Rfc.Regs(0xe51fec74, 0xa0876ee4, 0xcdc2b4b0, 0x61655bde), X, Rfc.Round1Ops, 4)
  {
    Rfc.Round1Line1(0x67452301, 0xefcdab89, 0x98badcfe, 0x10325476, X, 0xe51fec74, 0x61655bde, 0xcdc2b4b0, 0xa0876ee4);
  }

  lemma CrLfWrittenR1L2(X: seq<Word>)
    requires |X| == 16
    requires X[4] == 0x00000000 && X[5] == 0x00000000 && X[6] == 0x00000000 && X[7] == 0x00000000
    ensures Rfc.Run(Rfc.Round1, Rfc.Regs(0xe51fec74, 0xa0876ee4, 0xcdc2b4b0, 0x61655bde), X, Rfc.Round1Ops, 4) == Rfc.Run(Rfc.Round1, Rfc.Regs(0xdfa05db2, 0x9073e8d2, 0x73514d3d, 0xe08ae04d), X, Rfc.Round1Ops, 8)
  {
    Rfc.Round1Line2(0xe51fec74, 0xa0876ee4, 0xcdc2b4b0, 0x61655bde, X, 0xdfa05db2, 0xe08ae04d, 0x73514d3d, 0x9073e8d2);
  }

  lemma CrLfWrittenR1L3(X: seq<Word>)
    requires |X| == 16
    requires X[8] == 0x00000000 && X[9] == 0x00000000 && X[10] == 0x00000000 && X[11] == 0x00000000
    ensures Rfc.Run(Rfc.Round1, Rfc.Regs(0xdfa05db2, 0x9073e8d2, 0x73514d3d, 0xe08ae04d), X, Rfc.Round1Ops, 8) == Rfc.Run(Rfc.Round1, Rfc.Regs(0x8d933cae, 0x56b518d5, 0x050c3cd9, 0xc1ac3290), X, Rfc.Round1Ops, 12)
  {
    Rfc.Round1Line3(0xdfa05db2, 0x9073e8d2, 0x73514d3d, 0xe08ae04d, X, 0x8d933cae, 0xc1ac3290, 0x050c3cd9, 0x56b518d5);
  }

  lemma CrLfWrittenR1L4(X: seq<Word>)
    requires |X| == 16
    requires X[12] == 0x00000000 && X[13] == 0x00000000 && X[14] == 0x00000010 && X[15] == 0x00000000
    ensures Rfc.Run(Rfc.Round1, Rfc.Regs(0x8d933cae, 0x56b518d5, 0x050c3cd9, 0xc1ac3290), X, Rfc.Round1Ops, 12) == Rfc.Run(Rfc.Round1, Rfc.Regs(0x6e796994, 0xa14a5222, 0xfe9f7d80, 0x0a8969fb), X, Rfc.Round1Ops, 16)
  {
    Rfc.Round1Line4(0x8d933cae, 0x56b518d5, 0x050c3cd9, 0xc1ac3290, X, 0x6e796994, 0x0a8969fb, 0xfe9f7d80, 0xa14a5222);
  }

  lemma CrLfWrittenR1(X: seq<Word>)
    requires |X| == 16
    requires X[0] == 0x0080000a && X[1] == 0x00000000 && X[2] == 0x00000000 && X[3] == 0x00000000
    requires X[4] == 0x00000000 && X[5] == 0x00000000 && X[6] == 0x00000000 && X[7] == 0x00000000
    requires X[8] == 0x00000000 && X[9] == 0x00000000 && X[10] == 0x00000000 && X[11] == 0x00000000
    requires X[12] == 0x00000000 && X[13] == 0x00000000 && X[14] == 0x00000010 && X[15] == 0x00000000
    ensures Rfc.Run(Rfc.Round1, Rfc.Regs(0x67452301, 0xefcdab89, 0x98badcfe, 0x10325476), X, Rfc.Round1Ops, 0) == Rfc.Regs(0x6e796994, 0xa14a5222, 0xfe9f7d80, 0x0a8969fb)
  {
    CrLfWrittenR1L1(X);
    CrLfWrittenR1L2(X);
    CrLfWrittenR1L3(X);
    CrLfWrittenR1L4(X);
  }

  lemma CrLfWrittenR2L1(X: seq<Word>)
    requires |X| == 16
    requires X[0] == 0x0080000a && X[1] == 0x00000000 && X[6] == 0x00000000 && X[11] == 0x00000000
    ensures Rfc.Run(Rfc.Round2, Rfc.Regs(0x6e796994, 0xa14a5222, 0xfe9f7d80, 0x0a8969fb), X, Rfc.Round2Ops, 0) == Rfc.Run(Rfc.Round2, Rfc.Regs(0xb806b52d, 0xfcdc627e, 0x0bef1f78, 0xd8af7035), X, Rfc.Round2Ops, 4)
  {
    Rfc.Round2Line1(0x6e796994, 0xa14a5222, 0xfe9f7d80, 0x0a8969fb, X, 0xb806b52d, 0xd8af7035, 0x0bef1f78, 0xfcdc627e);
  }

  lemma CrLfWrittenR2L2(X: seq<Word>)
    requires |X| == 16
    requires X[4] == 0x00000000 && X[5] == 0x00000000 && X[10] == 0x00000000 && X[15] == 0x00000000
    ensures Rfc.Run(Rfc.Round2, Rfc.Regs(0xb806b52d, 0xfcdc627e, 0x0bef1f78, 0xd8af7035), X, Rfc.Round2Ops, 4) == Rfc.Run(Rfc.Round2, Rfc.Regs(0x3d23034b, 0x84b784dc, 0x94cfcc9c, 0x8af2b0fb), X, Rfc.Round2Ops, 8)
  {
    Rfc.Round2Line2(0xb806b52d, 0xfcdc627e, 0x0bef1f78, 0xd8af7035, X, 0x3d23034b, 0x8af2b0fb, 0x94cfcc9c, 0x84b784dc);
  }

  lemma CrLfWrittenR2L3(X: seq<Word>)
    requires |X| == 16
    requires X[3] == 0x00000000 && X[8] == 0x00000000 && X[9] == 0x00000000 && X[14] == 0x00000010
    ensures Rfc.Run(Rfc.Round2, Rfc.Regs(0x3d23034b, 0x84b784dc, 0x94cfcc9c, 0x8af2b0fb), X, Rfc.Round2Ops, 8) == Rfc.Run(Rfc.Round2, Rfc.Regs(0xfd4b469a, 0x90f681a4, 0x2e66fc1b, 0x4746ba5f), X, Rfc.Round2Ops, 12)
  {
    Rfc.Round2Line3(0x3d23034b, 0x84b784dc, 0x94cfcc9c, 0x8af2b0fb, X, 0xfd4b469a, 0x4746ba5f, 0x2e66fc1b, 0x90f681a4);
  }

  lemma CrLfWrittenR2L4(X: seq<Word>)
    requires |X| == 16
    requires X[2] == 0x00000000 && X[7] == 0x00000000 && X[12] == 0x00000000 && X[13] == 0x00000000
    ensures Rfc.Run(Rfc.Round2, Rfc.Regs(0xfd4b469a, 0x90f681a4, 0x2e66fc1b, 0x4746ba5f), X, Rfc.Round2Ops, 12) == Rfc.Run(Rfc.Round2, Rfc.Regs(0x83b4f61d, 0x984ff0b9, 0xf8008a14, 0x5a5d1fca), X, Rfc.Round2Ops, 16)
  {
    Rfc.Round2Line4(0xfd4b469a, 0x90f681a4, 0x2e66fc1b, 0x4746ba5f, X, 0x83b4f61d, 0x5a5d1fca, 0xf8008a14, 0x984ff0b9);
  }

  lemma CrLfWrittenR2(X: seq<Word>)
    requires |X| == 16
    requires X[0] == 0x0080000a && X[1] == 0x00000000 && X[2] == 0x00000000 && X[3] == 0x00000000
    requires X[4] == 0x00000000 && X[5] == 0x00000000 && X[6] == 0x00000000 && X[7] == 0x00000000
    requires X[8] == 0x00000000 && X[9] == 0x00000000 && X[10] == 0x00000000 && X[11] == 0x00000000
    requires X[12] == 0x00000000 && X[13] == 0x00000000 && X[14] == 0x00000010 && X[15] == 0x00000000
    ensures Rfc.Run(Rfc.Round2, Rfc.Regs(0x6e796994, 0xa14a5222, 0xfe9f7d80, 0x0a8969fb), X, Rfc.Round2Ops, 0) == Rfc.Regs(0x83b4f61d, 0x984ff0b9, 0xf8008a14, 0x5a5d1fca)
  {
    CrLfWrittenR2L1(X);
    CrLfWrittenR2L2(X);
    CrLfWrittenR2L3(X);
    CrLfWrittenR2L4(X);
  }

  lemma CrLfWrittenR3L1(X: seq<Word>)
    requires |X| == 16
    requires X[5] == 0x00000000 && X[8] == 0x00000000 && X[11] == 0x00000000 && X[14] == 0x00000010
    ensures Rfc.Run(Rfc.Round3, Rfc.Regs(0x83b4f61d, 0x984ff0b9, 0xf8008a14, 0x5a5d1fca), X, Rfc.Round3Ops, 0) == Rfc.Run(Rfc.Round3, Rfc.Regs(0x74693d24, 0xa953c9e8, 0x33dc3de2, 0x1f57e4d3), X, Rfc.Round3Ops, 4)
  {
    Rfc.Round3Line1(0x83b4f61d, 0x984ff0b9, 0xf8008a14, 0x5a5d1fca, X, 0x74693d24, 0x1f57e4d3, 0x33dc3de2, 0xa953c9e8);
  }

  lemma CrLfWrittenR3L2(X: seq<Word>)
    requires |X| == 16
    requires X[1] == 0x00000000 && X[4] == 0x00000000 && X[7] == 0x00000000 && X[10] == 0x00000000
    ensures Rfc.Run(Rfc.Round3, Rfc.Regs(0x74693d24, 0xa953c9e8, 0x33dc3de2, 0x1f57e4d3), X, Rfc.Round3Ops, 4) == Rfc.Run(Rfc.Round3, Rfc.Regs(0x99574e01, 0xac626331, 0xac9dd8df, 0x14cb8979), X, Rfc.Round3Ops, 8)
  {
    Rfc.Round3Line2(0x74693d24, 0xa953c9e8, 0x33dc3de2, 0x1f57e4d3, X, 0x99574e01, 0x14cb8979, 0xac9dd8df, 0xac626331);
  }

  lemma CrLfWrittenR3L3(X: seq<Word>)
    requires |X| == 16
    requires X[0] == 0x0080000a && X[3] == 0x00000000 && X[6] == 0x00000000 && X[13] == 0x00000000
    ensures Rfc.Run(Rfc.Round3, Rfc.Regs(0x99574e01, 0xac626331, 0xac9dd8df, 0x14cb8979), X, Rfc.Round3Ops, 8) == Rfc.Run(Rfc.Round3, Rfc.Regs(0x0ed2591e, 0x3c56e82f, 0xe87b84e1, 0xe375c18e), X, Rfc.Round3Ops, 12)
  {
    Rfc.Round3Line3(0x99574e01, 0xac626331, 0xac9dd8df, 0x14cb8979, X, 0x0ed2591e, 0xe375c18e, 0xe87b84e1, 0x3c56e82f);
  }

  lemma CrLfWrittenR3L4(X: seq<Word>)
    requires |X| == 16
    requires X[2] == 0x00000000 && X[9] == 0x00000000 && X[12] == 0x00000000 && X[15] == 0x00000000
    ensures Rfc.Run(Rfc.Round3, Rfc.Regs(0x0ed2591e, 0x3c56e82f, 0xe87b84e1, 0xe375c18e), X, Rfc.Round3Ops, 12) == Rfc.Run(Rfc.Round3, Rfc.Regs(0x3c5451a0, 0x4198eb87, 0x79adf86d, 0x911b5f36), X, Rfc.Round3Ops, 16)
  {
    Rfc.Round3Line4(0x0ed2591e, 0x3c56e82f, 0xe87b84e1, 0xe375c18e, X, 0x3c5451a0, 0x911b5f36, 0x79adf86d, 0x4198eb87);
  }

  lemma CrLfWrittenR3(X: seq<Word>)
    requires |X| == 16
    requires X[0] == 0x0080000a && X[1] == 0x00000000 && X[2] == 0x00000000 && X[3] == 0x00000000
    requires X[4] == 0x00000000 && X[5] == 0x00000000 && X[6] == 0x00000000 && X[7] == 0x00000000
    requires X[8] == 0x00000000 && X[9] == 0x00000000 && X[10] == 0x00000000 && X[11] == 0x00000000
    requires X[12] == 0x00000000 && X[13] == 0x00000000 && X[14] == 0x00000010 && X[15] == 0x00000000
    ensures Rfc.Run(Rfc.Round3, Rfc.Regs(0x83b4f61d, 0x984ff0b9, 0xf8008a14, 0x5a5d1fca), X, Rfc.Round3Ops, 0) == Rfc.Regs(0x3c5451a0, 0x4198eb87, 0x79adf86d, 0x911b5f36)
  {
    CrLfWrittenR3L1(X);
    CrLfWrittenR3L2(X);
    CrLfWrittenR3L3(X);
    CrLfWrittenR3L4(X);
  }

  lemma CrLfWrittenR4L1(X: seq<Word>)
    requires |X| == 16
    requires X[0] == 0x0080000a && X[5] == 0x00000000 && X[7] == 0x00000000 && X[14] == 0x00000010
    ensures Rfc.Run(Rfc.Round4, Rfc.Regs(0x3c5451a0, 0x4198eb87, 0x79adf86d, 0x911b5f36), X, Rfc.Round4Ops, 0) == Rfc.Run(Rfc.Round4, Rfc.Regs(0x153acf98, 0x1cbbd8d5, 0x9e4ae213, 0xb7467a44), X, Rfc.Round4Ops, 4)
  {
    Rfc.Round4Line1(0x3c5451a0, 0x4198eb87, 0x79adf86d, 0x911b5f36, X, 0x153acf98, 0xb7467a44, 0x9e4ae213, 0x1cbbd8d5);
  }

  lemma CrLfWrittenR4L2(X: seq<Word>)
    requires |X| == 16
    requires X[1] == 0x00000000 && X[3] == 0x00000000 && X[10] == 0x00000000 && X[12] == 0x00000000
    ensures Rfc.Run(Rfc.Round4, Rfc.Regs(0x153acf98, 0x1cbbd8d5, 0x9e4ae213, 0xb7467a44), X, Rfc.Round4Ops, 4) == Rfc.Run(Rfc.Round4, Rfc.Regs(0x7e962aa4, 0xe48087cb, 0x8d7df952, 0xff4e6949), X, Rfc.Round4Ops, 8)
  {
    Rfc.Round4Line2(0x153acf98, 0x1cbbd8d5, 0x9e4ae213, 0xb7467a44, X, 0x7e962aa4, 0xff4e6949, 0x8d7df952, 0xe48087cb);
  }

  lemma CrLfWrittenR4L3(X: seq<Word>)
    requires |X| == 16
    requires X[6] == 0x00000000 && X[8] == 0x00000000 && X[13] == 0x00000000 && X[15] == 0x00000000
    ensures Rfc.Run(Rfc.Round4, Rfc.Regs(0x7e962aa4, 0xe48087cb, 0x8d7df952, 0xff4e6949), X, Rfc.Round4Ops, 8) == Rfc.Run(Rfc.Round4, Rfc.Regs(0xe7466fe1, 0x5d20bee3, 0x58455280, 0xf027ac24), X, Rfc.Round4Ops, 12)
  {
    Rfc.Round4Line3(0x7e962aa4, 0xe48087cb, 0x8d7df952, 0xff4e6949, X, 0xe7466fe1, 0xf027ac24, 0x58455280, 0x5d20bee3);
  }

  lemma CrLfWrittenR4L4(X: seq<Word>)
    requires |X| == 16
    requires X[2] == 0x00000000 && X[4] == 0x00000000 && X[9] == 0x00000000 && X[11] == 0x00000000
    ensures Rfc.Run(Rfc.Round4, Rfc.Regs(0xe7466fe1, 0x5d20bee3, 0x58455280, 0xf027ac24), X, Rfc.Round4Ops, 12) == Rfc.Run(Rfc.Round4, Rfc.Regs(0xf307b69c, 0x5ac356c2, 0xcad351f6, 0xf9858bfc), X, Rfc.Round4Ops, 16)
  {
    Rfc.Round4Line4(0xe7466fe1, 0x5d20bee3, 0x58455280, 0xf027ac24, X, 0xf307b69c, 0xf9858bfc, 0xcad351f6, 0x5ac356c2);
  }

  lemma CrLfWrittenR4(X: seq<Word>)
    requires |X| == 16
    requires X[0] == 0x0080000a && X[1] == 0x00000000 && X[2] == 0x00000000 && X[3] == 0x00000000
    requires X[4] == 0x00000000 && X[5] == 0x00000000 && X[6] == 0x00000000 && X[7] == 0x00000000
    requires X[8] == 0x00000000 && X[9] == 0x00000000 && X[10] == 0x00000000 && X[11] == 0x00000000
    requires X[12] == 0x00000000 && X[13] == 0x00000000 && X[14] == 0x00000010 && X[15] == 0x00000000
    ensures Rfc.Run(Rfc.Round4, Rfc.Regs(0x3c5451a0, 0x4198eb87, 0x79adf86d, 0x911b5f36), X, Rfc.Round4Ops, 0) == Rfc.Regs(0xf307b69c, 0x5ac356c2, 0xcad351f6, 0xf9858bfc)
  {
    CrLfWrittenR4L1(X);
    CrLfWrittenR4L2(X);
    CrLfWrittenR4L3(X);
    CrLfWrittenR4L4(X);
  }

  lemma CrLfWrittenCompress(X: seq<Word>)
    requires |X| == 16
    requires X[0] == 0x0080000a && X[1] == 0x00000000 && X[2] == 0x00000000 && X[3] == 0x00000000
    requires X[4] == 0x00000000 && X[5] == 0x00000000 && X[6] == 0x00000000 && X[7] == 0x00000000
    requires X[8] == 0x00000000 && X[9] == 0x00000000 && X[10] == 0x00000000 && X[11] == 0x00000000
    requires X[12] == 0x00000000 && X[13] == 0x00000000 && X[14] == 0x00000010 && X[15] == 0x00000000
    ensures Rfc.Compress(Rfc.Regs(0x67452301, 0xefcdab89, 0x98badcfe, 0x10325476), X) == Rfc.Regs(0x5a4cd99d, 0x4a91024b, 0x638e2ef4, 0x09b7e072)
  {
    CrLfWrittenR1(X);
    CrLfWrittenR2(X);
    CrLfWrittenR3(X);
    CrLfWrittenR4(X);
  }

  lemma CrLfCore()
    ensures Core(Packed(Encoded(CrLf)), |CrLf| * 8) == Rfc.Regs(0x5a4cd99d, 0x4a91024b, 0x638e2ef4, 0x09b7e072)
  {
    CrLfEncoded();
    CrLfPacked();
    CrLfMarked();
    HashFromOne(Rfc.Init, Marked([0x0000000a], 16));
    CrLfWrittenCompress(Block(Marked([0x0000000a], 16), 0));
  }

  lemma CrLfWrittenHex0()
    ensures Rfc.Hex(Rfc.WordBytes(0x5a4cd99d)) == "9dd94c5a"
  {
    Rfc.HexOfWordBytes(0x5a4cd99d);
  }

  lemma CrLfWrittenHex1()
    ensures Rfc.Hex(Rfc.WordBytes(0x4a91024b)) == "4b02914a"
  {
    Rfc.HexOfWordBytes(0x4a91024b);
  }

  lemma CrLfWrittenHex2()
    ensures Rfc.Hex(Rfc.WordBytes(0x638e2ef4)) == "f42e8e63"
  {
    Rfc.HexOfWordBytes(0x638e2ef4);
  }

  lemma CrLfWrittenHex3()
    ensures Rfc.Hex(Rfc.WordBytes(0x09b7e072)) == "72e0b709"
  {
    Rfc.HexOfWordBytes(0x09b7e072);
  }

  lemma CrLfWrittenText()
    ensures "9dd94c5a" + "4b02914a" + "f42e8e63" + "72e0b709" == "9dd94c5a4b02914af42e8e6372e0b709"
  {
  }

  lemma CrLfAsWritten()
    ensures Md5AsWritten(CrLf) == "9dd94c5a4b02914af42e8e6372e0b709"
  {
    CrLfCore();
    CrLfWrittenHex0();
    CrLfWrittenHex1();
    CrLfWrittenHex2();
    CrLfWrittenHex3();
    DigestHexOf(Rfc.Regs(0x5a4cd99d, 0x4a91024b, 0x638e2ef4, 0x09b7e072), "9dd94c5a", "4b02914a", "f42e8e63", "72e0b709");
    CrLfWrittenText();
  }

  lemma CrLfBytes()
    ensures Bytes([0x0A]) == V.NewlineMessage
  {
  }

  /** md5 with the encoded length, on the same text. */
  lemma CrLfFixed()
    ensures Md5Encoded(CrLf) == "68b329da9893e34099c7d8ad5cb9c940"
  {
    CrLfEncoded();
    Md5EncodedIsRfc(CrLf);
    CrLfBytes();
    V.NewlineDigest();
  }

  /** md5 as written is not the RFC 1321 digest of the bytes it hashes;
      md5 with the encoded length is. */
  lemma CrLfDiffers()
    ensures Md5AsWritten(CrLf) != Rfc.Md5Hex(Bytes(Encoded(CrLf)))
    ensures Md5Encoded(CrLf) == Rfc.Md5Hex(Bytes(Encoded(CrLf)))
  {
    CrLfAsWritten();
    CrLfFixed();
    CrLfEncoded();
    Md5EncodedIsRfc(CrLf);
  }
}
