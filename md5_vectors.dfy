/**
 * Known answers of the MD5 definition of RFC 1321, including the empty
 * message of its appendix A.5 test suite, each worked out block by block:
 * the padded words, the registers after every line of every round, and the
 * rendered digest.
 */
module Md5Vectors {
  import opened Rfc1321

  /** A one-block message is hashed by a single compression. */
  lemma OneBlock(st: Regs, X: seq<Word>)
    requires |X| == 16
    ensures HashBlocks(st, X) == Compress(st, X)
  {
    assert X[..16] == X;
    assert X[16..] == [];
  }

  /** The digest string of a message whose registers are known. */
  lemma DigestOf(m: seq<Byte>, r: Regs, s0: string, s1: string, s2: string, s3: string)
    requires HashBlocks(Init, PaddedWords(m)) == r
    requires Hex(WordBytes(r.a)) == s0 && Hex(WordBytes(r.b)) == s1
    requires Hex(WordBytes(r.c)) == s2 && Hex(WordBytes(r.d)) == s3
    ensures Md5Hex(m) == s0 + s1 + s2 + s3
  {
    HexOfRegs(r);
  }

  /** The empty message (RFC 1321 appendix A.5). */
  const EmptyMessage: seq<Byte> := []

  lemma EmptyWord0()
    ensures PaddedWords(EmptyMessage)[0] == 0x00000080
  {
    PaddedWordAt(EmptyMessage, 0);
  }

  lemma EmptyWord1()
    ensures PaddedWords(EmptyMessage)[1] == 0x00000000
  {
    PaddedWordAt(EmptyMessage, 1);
  }

  lemma EmptyWord2()
    ensures PaddedWords(EmptyMessage)[2] == 0x00000000
  {
    PaddedWordAt(EmptyMessage, 2);
  }

  lemma EmptyWord3()
    ensures PaddedWords(EmptyMessage)[3] == 0x00000000
  {
    PaddedWordAt(EmptyMessage, 3);
  }

  lemma EmptyWord4()
    ensures PaddedWords(EmptyMessage)[4] == 0x00000000
  {
    PaddedWordAt(EmptyMessage, 4);
  }

  lemma EmptyWord5()
    ensures PaddedWords(EmptyMessage)[5] == 0x00000000
  {
    PaddedWordAt(EmptyMessage, 5);
  }

  lemma EmptyWord6()
    ensures PaddedWords(EmptyMessage)[6] == 0x00000000
  {
    PaddedWordAt(EmptyMessage, 6);
  }

  lemma EmptyWord7()
    ensures PaddedWords(EmptyMessage)[7] == 0x00000000
  {
    PaddedWordAt(EmptyMessage, 7);
  }

  lemma EmptyWord8()
    ensures PaddedWords(EmptyMessage)[8] == 0x00000000
  {
    PaddedWordAt(EmptyMessage, 8);
  }

  lemma EmptyWord9()
    ensures PaddedWords(EmptyMessage)[9] == 0x00000000
  {
    PaddedWordAt(EmptyMessage, 9);
  }

  lemma EmptyWord10()
    ensures PaddedWords(EmptyMessage)[10] == 0x00000000
  {
    PaddedWordAt(EmptyMessage, 10);
  }

  lemma EmptyWord11()
    ensures PaddedWords(EmptyMessage)[11] == 0x00000000
  {
    PaddedWordAt(EmptyMessage, 11);
  }

  lemma EmptyWord12()
    ensures PaddedWords(EmptyMessage)[12] == 0x00000000
  {
    PaddedWordAt(EmptyMessage, 12);
  }

  lemma EmptyWord13()
    ensures PaddedWords(EmptyMessage)[13] == 0x00000000
  {
    PaddedWordAt(EmptyMessage, 13);
  }

  lemma EmptyWord14()
    ensures PaddedWords(EmptyMessage)[14] == 0x00000000
  {
    LengthBytesAre(0, 0, 0);
    PaddedWordAt(EmptyMessage, 14);
  }

  lemma EmptyWord15()
    ensures PaddedWords(EmptyMessage)[15] == 0x00000000
  {
    LengthBytesAre(0, 0, 0);
    PaddedWordAt(EmptyMessage, 15);
  }

  lemma EmptyR1L1(X: seq<Word>)
    requires |X| == 16
    requires X[0] == 0x00000080 && X[1] == 0x00000000 && X[2] == 0x00000000 && X[3] == 0x00000000
    ensures Run(Round1, Regs(0x67452301, 0xefcdab89, 0x98badcfe, 0x10325476), X, Round1Ops, 0) == Run(Round1, Regs(0xa5202774, 0x1b163203, 0xe7f06b23, 0xf59592dd), X, Round1Ops, 4)
  {
    Round1Line1(0x67452301, 0xefcdab89, 0x98badcfe, 0x10325476, X, 0xa5202774, 0xf59592dd, 0xe7f06b23, 0x1b163203);
  }

  lemma EmptyR1L2(X: seq<Word>)
    requires |X| == 16
    requires X[4] == 0x00000000 && X[5] == 0x00000000 && X[6] == 0x00000000 && X[7] == 0x00000000
    ensures Run(Round1, Regs(0xa5202774, 0x1b163203, 0xe7f06b23, 0xf59592dd), X, Round1Ops, 4) == Run(Round1, Regs(0x32033344, 0x9bc13ce9, 0xf5b158db, 0x2f35d494), X, Round1Ops, 8)
  {
    Round1Line2(0xa5202774, 0x1b163203, 0xe7f06b23, 0xf59592dd, X, 0x32033344, 0x2f35d494, 0xf5b158db, 0x9bc13ce9);
  }

  lemma EmptyR1L3(X: seq<Word>)
    requires |X| == 16
    requires X[8] == 0x00000000 && X[9] == 0x00000000 && X[10] == 0x00000000 && X[11] == 0x00000000
    ensures Run(Round1, Regs(0x32033344, 0x9bc13ce9, 0xf5b158db, 0x2f35d494), X, Round1Ops, 8) == Run(Round1, Regs(0x3893b991, 0x70768a29, 0xe1ef0576, 0xfce4a312), X, Round1Ops, 12)
  {
    Round1Line3(0x32033344, 0x9bc13ce9, 0xf5b158db, 0x2f35d494, X, 0x3893b991, 0xfce4a312, 0xe1ef0576, 0x70768a29);
  }

  lemma EmptyR1L4(X: seq<Word>)
    requires |X| == 16
    requires X[12] == 0x00000000 && X[13] == 0x00000000 && X[14] == 0x00000000 && X[15] == 0x00000000
    ensures Run(Round1, Regs(0x3893b991, 0x70768a29, 0xe1ef0576, 0xfce4a312), X, Round1Ops, 12) == Run(Round1, Regs(0xf56c7cf1, 0xd6819c6a, 0x5aa53f75, 0x374943a7), X, Round1Ops, 16)
  {
    Round1Line4(0x3893b991, 0x70768a29, 0xe1ef0576, 0xfce4a312, X, 0xf56c7cf1, 0x374943a7, 0x5aa53f75, 0xd6819c6a);
  }

  lemma EmptyR1(X: seq<Word>)
    requires |X| == 16
    requires X[0] == 0x00000080 && X[1] == 0x00000000 && X[2] == 0x00000000 && X[3] == 0x00000000
    requires X[4] == 0x00000000 && X[5] == 0x00000000 && X[6] == 0x00000000 && X[7] == 0x00000000
    requires X[8] == 0x00000000 && X[9] == 0x00000000 && X[10] == 0x00000000 && X[11] == 0x00000000
    requires X[12] == 0x00000000 && X[13] == 0x00000000 && X[14] == 0x00000000 && X[15] == 0x00000000
    ensures Run(Round1, Regs(0x67452301, 0xefcdab89, 0x98badcfe, 0x10325476), X, Round1Ops, 0) == Regs(0xf56c7cf1, 0xd6819c6a, 0x5aa53f75, 0x374943a7)
  {
    EmptyR1L1(X);
    EmptyR1L2(X);
    EmptyR1L3(X);
    EmptyR1L4(X);
  }

  lemma EmptyR2L1(X: seq<Word>)
    requires |X| == 16
    requires X[0] == 0x00000080 && X[1] == 0x00000000 && X[6] == 0x00000000 && X[11] == 0x00000000
    ensures Run(Round2, Regs(0xf56c7cf1, 0xd6819c6a, 0x5aa53f75, 0x374943a7), X, Round2Ops, 0) == Run(Round2, Regs(0x1c7d7513, 0xbd782e17, 0xc095f13a, 0x7bd57a3a), X, Round2Ops, 4)
  {
    Round2Line1(0xf56c7cf1, 0xd6819c6a, 0x5aa53f75, 0x374943a7, X, 0x1c7d7513, 0x7bd57a3a, 0xc095f13a, 0xbd782e17);
  }

  lemma EmptyR2L2(X: seq<Word>)
    requires |X| == 16
    requires X[4] == 0x00000000 && X[5] == 0x00000000 && X[10] == 0x00000000 && X[15] == 0x00000000
    ensures Run(Round2, Regs(0x1c7d7513, 0xbd782e17, 0xc095f13a, 0x7bd57a3a), X, Round2Ops, 4) == Run(Round2, Regs(0x3d1e3e6c, 0xe422531a, 0xeb41643e, 0x68b7b3e3), X, Round2Ops, 8)
  {
    Round2Line2(0x1c7d7513, 0xbd782e17, 0xc095f13a, 0x7bd57a3a, X, 0x3d1e3e6c, 0x68b7b3e3, 0xeb41643e, 0xe422531a);
  }

  lemma EmptyR2L3(X: seq<Word>)
    requires |X| == 16
    requires X[3] == 0x00000000 && X[8] == 0x00000000 && X[9] == 0x00000000 && X[14] == 0x00000000
    ensures Run(Round2, Regs(0x3d1e3e6c, 0xe422531a, 0xeb41643e, 0x68b7b3e3), X, Round2Ops, 8) == Run(Round2, Regs(0x306ec122, 0xa0572807, 0xa3c663da, 0xd28c77c2), X, Round2Ops, 12)
  {
    Round2Line3(0x3d1e3e6c, 0xe422531a, 0xeb41643e, 0x68b7b3e3, X, 0x306ec122, 0xd28c77c2, 0xa3c663da, 0xa0572807);
  }

  lemma EmptyR2L4(X: seq<Word>)
    requires |X| == 16
    requires X[2] == 0x00000000 && X[7] == 0x00000000 && X[12] == 0x00000000 && X[13] == 0x00000000
    ensures Run(Round2, Regs(0x306ec122, 0xa0572807, 0xa3c663da, 0xd28c77c2), X, Round2Ops, 12) == Run(Round2, Regs(0x13707036, 0xa2205f1f, 0x1c31c384, 0xae7813db), X, Round2Ops, 16)
  {
    Round2Line4(0x306ec122, 0xa0572807, 0xa3c663da, 0xd28c77c2, X, 0x13707036, 0xae7813db, 0x1c31c384, 0xa2205f1f);
  }

  lemma EmptyR2(X: seq<Word>)
    requires |X| == 16
    requires X[0] == 0x00000080 && X[1] == 0x00000000 && X[2] == 0x00000000 && X[3] == 0x00000000
    requires X[4] == 0x00000000 && X[5] == 0x00000000 && X[6] == 0x00000000 && X[7] == 0x00000000
    requires X[8] == 0x00000000 && X[9] == 0x00000000 && X[10] == 0x00000000 && X[11] == 0x00000000
    requires X[12] == 0x00000000 && X[13] == 0x00000000 && X[14] == 0x00000000 && X[15] == 0x00000000
    ensures Run(Round2, Regs(0xf56c7cf1, 0xd6819c6a, 0x5aa53f75, 0x374943a7), X, Round2Ops, 0) == Regs(0x13707036, 0xa2205f1f, 0x1c31c384, 0xae7813db)
  {
    EmptyR2L1(X);
    EmptyR2L2(X);
    EmptyR2L3(X);
    EmptyR2L4(X);
  }

  lemma EmptyR3L1(X: seq<Word>)
    requires |X| == 16
    requires X[5] == 0x00000000 && X[8] == 0x00000000 && X[11] == 0x00000000 && X[14] == 0x00000000
    ensures Run(Round3, Regs(0x13707036, 0xa2205f1f, 0x1c31c384, 0xae7813db), X, Round3Ops, 0) == Run(Round3, Regs(0xdf63eaa1, 0x004b6669, 0x12f3e755, 0xc3689f5b), X, Round3Ops, 4)
  {
    Round3Line1(0x13707036, 0xa2205f1f, 0x1c31c384, 0xae7813db, X, 0xdf63eaa1, 0xc3689f5b, 0x12f3e755, 0x004b6669);
  }

  lemma EmptyR3L2(X: seq<Word>)
    requires |X| == 16
    requires X[1] == 0x00000000 && X[4] == 0x00000000 && X[7] == 0x00000000 && X[10] == 0x00000000
    ensures Run(Round3, Regs(0xdf63eaa1, 0x004b6669, 0x12f3e755, 0xc3689f5b), X, Round3Ops, 4) == Run(Round3, Regs(0x5f7a9b2e, 0xc5dc8c15, 0x91ca4cb7, 0xabc34e16), X, Round3Ops, 8)
  {
    Round3Line2(0xdf63eaa1, 0x004b6669, 0x12f3e755, 0xc3689f5b, X, 0x5f7a9b2e, 0xabc34e16, 0x91ca4cb7, 0xc5dc8c15);
  }

  lemma EmptyR3L3(X: seq<Word>)
    requires |X| == 16
    requires X[0] == 0x00000080 && X[3] == 0x00000000 && X[6] == 0x00000000 && X[13] == 0x00000000
    ensures Run(Round3, Regs(0x5f7a9b2e, 0xc5dc8c15, 0x91ca4cb7, 0xabc34e16), X, Round3Ops, 8) == Run(Round3, Regs(0x4497169d, 0x0fe32453, 0xfd95f243, 0x76fd93d4), X, Round3Ops, 12)
  {
    Round3Line3(0x5f7a9b2e, 0xc5dc8c15, 0x91ca4cb7, 0xabc34e16, X, 0x4497169d, 0x76fd93d4, 0xfd95f243, 0x0fe32453);
  }

  lemma EmptyR3L4(X: seq<Word>)
    requires |X| == 16
    requires X[2] == 0x00000000 && X[9] == 0x00000000 && X[12] == 0x00000000 && X[15] == 0x00000000
    ensures Run(Round3, Regs(0x4497169d, 0x0fe32453, 0xfd95f243, 0x76fd93d4), X, Round3Ops, 12) == Run(Round3, Regs(0x3f55edfd, 0xca7d2dbd, 0x68d84ea2, 0x22a31f54), X, Round3Ops, 16)
  {
    Round3Line4(0x4497169d, 0x0fe32453, 0xfd95f243, 0x76fd93d4, X, 0x3f55edfd, 0x22a31f54, 0x68d84ea2, 0xca7d2dbd);
  }

  lemma EmptyR3(X: seq<Word>)
    requires |X| == 16
    requires X[0] == 0x00000080 && X[1] == 0x00000000 && X[2] == 0x00000000 && X[3] == 0x00000000
    requires X[4] == 0x00000000 && X[5] == 0x00000000 && X[6] == 0x00000000 && X[7] == 0x00000000
    requires X[8] == 0x00000000 && X[9] == 0x00000000 && X[10] == 0x00000000 && X[11] == 0x00000000
    requires X[12] == 0x00000000 && X[13] == 0x00000000 && X[14] == 0x00000000 && X[15] == 0x00000000
    ensures Run(Round3, Regs(0x13707036, 0xa2205f1f, 0x1c31c384, 0xae7813db), X, Round3Ops, 0) == Regs(0x3f55edfd, 0xca7d2dbd, 0x68d84ea2, 0x22a31f54)
  {
    EmptyR3L1(X);
    EmptyR3L2(X);
    EmptyR3L3(X);
    EmptyR3L4(X);
  }

  lemma EmptyR4L1(X: seq<Word>)
    requires |X| == 16
    requires X[0] == 0x00000080 && X[5] == 0x00000000 && X[7] == 0x00000000 && X[14] == 0x00000000
    ensures Run(Round4, Regs(0x3f55edfd, 0xca7d2dbd, 0x68d84ea2, 0x22a31f54), X, Round4Ops, 0) == Run(Round4, Regs(0x93aa2577, 0x561e0689, 0xcd85b8cb, 0x1688dc85), X, Round4Ops, 4)
  {
    Round4Line1(0x3f55edfd, 0xca7d2dbd, 0x68d84ea2, 0x22a31f54, X, 0x93aa2577, 0x1688dc85, 0xcd85b8cb, 0x561e0689);
  }

  lemma EmptyR4L2(X: seq<Word>)
    requires |X| == 16
    requires X[1] == 0x00000000 && X[3] == 0x00000000 && X[10] == 0x00000000 && X[12] == 0x00000000
    ensures Run(Round4, Regs(0x93aa2577, 0x561e0689, 0xcd85b8cb, 0x1688dc85), X, Round4Ops, 4) == Run(Round4, Regs(0x5625a114, 0x1e77fa61, 0x392ad0d0, 0x3450f42b), X, Round4Ops, 8)
  {
    Round4Line2(0x93aa2577, 0x561e0689, 0xcd85b8cb, 0x1688dc85, X, 0x5625a114, 0x3450f42b, 0x392ad0d0, 0x1e77fa61);
  }

  lemma EmptyR4L3(X: seq<Word>)
    requires |X| == 16
    requires X[6] == 0x00000000 && X[8] == 0x00000000 && X[13] == 0x00000000 && X[15] == 0x00000000
    ensures Run(Round4, Regs(0x5625a114, 0x1e77fa61, 0x392ad0d0, 0x3450f42b), X, Round4Ops, 8) == Run(Round4, Regs(0x474a9c8c, 0x30130182, 0x36594b14, 0xdfce00bc), X, Round4Ops, 12)
  {
    Round4Line3(0x5625a114, 0x1e77fa61, 0x392ad0d0, 0x3450f42b, X, 0x474a9c8c, 0xdfce00bc, 0x36594b14, 0x30130182);
  }

  lemma EmptyR4L4(X: seq<Word>)
    requires |X| == 16
    requires X[2] == 0x00000000 && X[4] == 0x00000000 && X[9] == 0x00000000 && X[11] == 0x00000000
    ensures Run(Round4, Regs(0x474a9c8c, 0x30130182, 0x36594b14, 0xdfce00bc), X, Round4Ops, 12) == Run(Round4, Regs(0x7246fad3, 0x14e45506, 0xff4ea3eb, 0x6e10a476), X, Round4Ops, 16)
  {
    Round4Line4(0x474a9c8c, 0x30130182, 0x36594b14, 0xdfce00bc, X, 0x7246fad3, 0x6e10a476, 0xff4ea3eb, 0x14e45506);
  }

  lemma EmptyR4(X: seq<Word>)
    requires |X| == 16
    requires X[0] == 0x00000080 && X[1] == 0x00000000 && X[2] == 0x00000000 && X[3] == 0x00000000
    requires X[4] == 0x00000000 && X[5] == 0x00000000 && X[6] == 0x00000000 && X[7] == 0x00000000
    requires X[8] == 0x00000000 && X[9] == 0x00000000 && X[10] == 0x00000000 && X[11] == 0x00000000
    requires X[12] == 0x00000000 && X[13] == 0x00000000 && X[14] == 0x00000000 && X[15] == 0x00000000
    ensures Run(Round4, Regs(0x3f55edfd, 0xca7d2dbd, 0x68d84ea2, 0x22a31f54), X, Round4Ops, 0) == Regs(0x7246fad3, 0x14e45506, 0xff4ea3eb, 0x6e10a476)
  {
    EmptyR4L1(X);
    EmptyR4L2(X);
    EmptyR4L3(X);
    EmptyR4L4(X);
  }

  lemma EmptyCompress(X: seq<Word>)
    requires |X| == 16
    requires X[0] == 0x00000080 && X[1] == 0x00000000 && X[2] == 0x00000000 && X[3] == 0x00000000
    requires X[4] == 0x00000000 && X[5] == 0x00000000 && X[6] == 0x00000000 && X[7] == 0x00000000
    requires X[8] == 0x00000000 && X[9] == 0x00000000 && X[10] == 0x00000000 && X[11] == 0x00000000
    requires X[12] == 0x00000000 && X[13] == 0x00000000 && X[14] == 0x00000000 && X[15] == 0x00000000
    ensures Compress(Regs(0x67452301, 0xefcdab89, 0x98badcfe, 0x10325476), X) == Regs(0xd98c1dd4, 0x04b2008f, 0x980980e9, 0x7e42f8ec)
  {
    EmptyR1(X);
    EmptyR2(X);
    EmptyR3(X);
    EmptyR4(X);
  }

  lemma EmptyHash()
    ensures HashBlocks(Init, PaddedWords(EmptyMessage)) == Regs(0xd98c1dd4, 0x04b2008f, 0x980980e9, 0x7e42f8ec)
  {
    EmptyWord0();
    EmptyWord1();
    EmptyWord2();
    EmptyWord3();
    EmptyWord4();
    EmptyWord5();
    EmptyWord6();
    EmptyWord7();
    EmptyWord8();
    EmptyWord9();
    EmptyWord10();
    EmptyWord11();
    EmptyWord12();
    EmptyWord13();
    EmptyWord14();
    EmptyWord15();
    OneBlock(Init, PaddedWords(EmptyMessage));
    EmptyCompress(PaddedWords(EmptyMessage));
  }

  lemma EmptyHex0()
    ensures Hex(WordBytes(0xd98c1dd4)) == "d41d8cd9"
  {
    HexOfWordBytes(0xd98c1dd4);
  }

  lemma EmptyHex1()
    ensures Hex(WordBytes(0x04b2008f)) == "8f00b204"
  {
    HexOfWordBytes(0x04b2008f);
  }

  lemma EmptyHex2()
    ensures Hex(WordBytes(0x980980e9)) == "e9800998"
  {
    HexOfWordBytes(0x980980e9);
  }

  lemma EmptyHex3()
    ensures Hex(WordBytes(0x7e42f8ec)) == "ecf8427e"
  {
    HexOfWordBytes(0x7e42f8ec);
  }

  lemma EmptyText()
    ensures "d41d8cd9" + "8f00b204" + "e9800998" + "ecf8427e" == "d41d8cd98f00b204e9800998ecf8427e"
  {
  }

  lemma EmptyDigest()
    ensures Md5Hex(EmptyMessage) == "d41d8cd98f00b204e9800998ecf8427e"
  {
    EmptyHash();
    EmptyHex0();
    EmptyHex1();
    EmptyHex2();
    EmptyHex3();
    DigestOf(EmptyMessage, Regs(0xd98c1dd4, 0x04b2008f, 0x980980e9, 0x7e42f8ec), "d41d8cd9", "8f00b204", "e9800998", "ecf8427e");
    EmptyText();
  }

  /** The five bytes of "hello". */
  const HelloMessage: seq<Byte> := [0x68, 0x65, 0x6c, 0x6c, 0x6f]

  lemma HelloWord0()
    ensures PaddedWords(HelloMessage)[0] == 0x6c6c6568
  {
    PaddedWordAt(HelloMessage, 0);
  }

  lemma HelloWord1()
    ensures PaddedWords(HelloMessage)[1] == 0x0000806f
  {
    PaddedWordAt(HelloMessage, 1);
  }

  lemma HelloWord2()
    ensures PaddedWords(HelloMessage)[2] == 0x00000000
  {
    PaddedWordAt(HelloMessage, 2);
  }

  lemma HelloWord3()
    ensures PaddedWords(HelloMessage)[3] == 0x00000000
  {
    PaddedWordAt(HelloMessage, 3);
  }

  lemma HelloWord4()
    ensures PaddedWords(HelloMessage)[4] == 0x00000000
  {
    PaddedWordAt(HelloMessage, 4);
  }

  lemma HelloWord5()
    ensures PaddedWords(HelloMessage)[5] == 0x00000000
  {
    PaddedWordAt(HelloMessage, 5);
  }

  lemma HelloWord6()
    ensures PaddedWords(HelloMessage)[6] == 0x00000000
  {
    PaddedWordAt(HelloMessage, 6);
  }

  lemma HelloWord7()
    ensures PaddedWords(HelloMessage)[7] == 0x00000000
  {
    PaddedWordAt(HelloMessage, 7);
  }

  lemma HelloWord8()
    ensures PaddedWords(HelloMessage)[8] == 0x00000000
  {
    PaddedWordAt(HelloMessage, 8);
  }

  lemma HelloWord9()
    ensures PaddedWords(HelloMessage)[9] == 0x00000000
  {
    PaddedWordAt(HelloMessage, 9);
  }

  lemma HelloWord10()
    ensures PaddedWords(HelloMessage)[10] == 0x00000000
  {
    PaddedWordAt(HelloMessage, 10);
  }

  lemma HelloWord11()
    ensures PaddedWords(HelloMessage)[11] == 0x00000000
  {
    PaddedWordAt(HelloMessage, 11);
  }

  lemma HelloWord12()
    ensures PaddedWords(HelloMessage)[12] == 0x00000000
  {
    PaddedWordAt(HelloMessage, 12);
  }

  lemma HelloWord13()
    ensures PaddedWords(HelloMessage)[13] == 0x00000000
  {
    PaddedWordAt(HelloMessage, 13);
  }

  lemma HelloWord14()
    ensures PaddedWords(HelloMessage)[14] == 0x00000028
  {
    LengthBytesAre(5, 40, 0);
    PaddedWordAt(HelloMessage, 14);
  }

  lemma HelloWord15()
    ensures PaddedWords(HelloMessage)[15] == 0x00000000
  {
    LengthBytesAre(5, 40, 0);
    PaddedWordAt(HelloMessage, 15);
  }

  lemma HelloR1L1(X: seq<Word>)
    requires |X| == 16
    requires X[0] == 0x6c6c6568 && X[1] == 0x0000806f && X[2] == 0x00000000 && X[3] == 0x00000000
    ensures Run(Round1, Regs(0x67452301, 0xefcdab89, 0x98badcfe, 0x10325476), X, Round1Ops, 0) == Run(Round1, Regs(0xdb529b2a, 0x9bfcc847, 0x241990e2, 0x11141778), X, Round1Ops, 4)
  {
    Round1Line1(0x67452301, 0xefcdab89, 0x98badcfe, 0x10325476, X, 0xdb529b2a, 0x11141778, 0x241990e2, 0x9bfcc847);
  }

  lemma HelloR1L2(X: seq<Word>)
    requires |X| == 16
    requires X[4] == 0x00000000 && X[5] == 0x00000000 && X[6] == 0x00000000 && X[7] == 0x00000000
    ensures Run(Round1, Regs(0xdb529b2a, 0x9bfcc847, 0x241990e2, 0x11141778), X, Round1Ops, 4) == Run(Round1, Regs(0x0f9df22f, 0xba47ed48, 0xcbbe3aff, 0x99848a72), X, Round1Ops, 8)
  {
    Round1Line2(0xdb529b2a, 0x9bfcc847, 0x241990e2, 0x11141778, X, 0x0f9df22f, 0x99848a72, 0xcbbe3aff, 0xba47ed48);
  }

  lemma HelloR1L3(X: seq<Word>)
    requires |X| == 16
    requires X[8] == 0x00000000 && X[9] == 0x00000000 && X[10] == 0x00000000 && X[11] == 0x00000000
    ensures Run(Round1, Regs(0x0f9df22f, 0xba47ed48, 0xcbbe3aff, 0x99848a72), X, Round1Ops, 8) == Run(Round1, Regs(0x0ca2adca, 0x4d649e67, 0x99ae8a0b, 0x90bc9cc8), X, Round1Ops, 12)
  {
    Round1Line3(0x0f9df22f, 0xba47ed48, 0xcbbe3aff, 0x99848a72, X, 0x0ca2adca, 0x90bc9cc8, 0x99ae8a0b, 0x4d649e67);
  }

  lemma HelloR1L4(X: seq<Word>)
    requires |X| == 16
    requires X[12] == 0x00000000 && X[13] == 0x00000000 && X[14] == 0x00000028 && X[15] == 0x00000000
    ensures Run(Round1, Regs(0x0ca2adca, 0x4d649e67, 0x99ae8a0b, 0x90bc9cc8), X, Round1Ops, 12) == Run(Round1, Regs(0x450959ef, 0xb693b95c, 0xd8f68bbf, 0xff9580ae), X, Round1Ops, 16)
  {
    Round1Line4(0x0ca2adca, 0x4d649e67, 0x99ae8a0b, 0x90bc9cc8, X, 0x450959ef, 0xff9580ae, 0xd8f68bbf, 0xb693b95c);
  }

  lemma HelloR1(X: seq<Word>)
    requires |X| == 16
    requires X[0] == 0x6c6c6568 && X[1] == 0x0000806f && X[2] == 0x00000000 && X[3] == 0x00000000
    requires X[4] == 0x00000000 && X[5] == 0x00000000 && X[6] == 0x00000000 && X[7] == 0x00000000
    requires X[8] == 0x00000000 && X[9] == 0x00000000 && X[10] == 0x00000000 && X[11] == 0x00000000
    requires X[12] == 0x00000000 && X[13] == 0x00000000 && X[14] == 0x00000028 && X[15] == 0x00000000
    ensures Run(Round1, Regs(0x67452301, 0xefcdab89, 0x98badcfe, 0x10325476), X, Round1Ops, 0) == Regs(0x450959ef, 0xb693b95c, 0xd8f68bbf, 0xff9580ae)
  {
    HelloR1L1(X);
    HelloR1L2(X);
    HelloR1L3(X);
    HelloR1L4(X);
  }

  lemma HelloR2L1(X: seq<Word>)
    requires |X| == 16
    requires X[0] == 0x6c6c6568 && X[1] == 0x0000806f && X[6] == 0x00000000 && X[11] == 0x00000000
    ensures Run(Round2, Regs(0x450959ef, 0xb693b95c, 0xd8f68bbf, 0xff9580ae), X, Round2Ops, 0) == Run(Round2, Regs(0xfa05151a, 0xa3175cb4, 0xd359648c, 0xb0cfa695), X, Round2Ops, 4)
  {
    Round2Line1(0x450959ef, 0xb693b95c, 0xd8f68bbf, 0xff9580ae, X, 0xfa05151a, 0xb0cfa695, 0xd359648c, 0xa3175cb4);
  }

  lemma HelloR2L2(X: seq<Word>)
    requires |X| == 16
    requires X[4] == 0x00000000 && X[5] == 0x00000000 && X[10] == 0x00000000 && X[15] == 0x00000000
    ensures Run(Round2, Regs(0xfa05151a, 0xa3175cb4, 0xd359648c, 0xb0cfa695), X, Round2Ops, 4) == Run(Round2, Regs(0x0c849f2a, 0x3ac98917, 0xc3dccef3, 0x4032e0d0), X, Round2Ops, 8)
  {
    Round2Line2(0xfa05151a, 0xa3175cb4, 0xd359648c, 0xb0cfa695, X, 0x0c849f2a, 0x4032e0d0, 0xc3dccef3, 0x3ac98917);
  }

  lemma HelloR2L3(X: seq<Word>)
    requires |X| == 16
    requires X[3] == 0x00000000 && X[8] == 0x00000000 && X[9] == 0x00000000 && X[14] == 0x00000028
    ensures Run(Round2, Regs(0x0c849f2a, 0x3ac98917, 0xc3dccef3, 0x4032e0d0), X, Round2Ops, 8) == Run(Round2, Regs(0x8128f18d, 0xd6de0b9c, 0x5dff718b, 0x687d9905), X, Round2Ops, 12)
  {
    Round2Line3(0x0c849f2a, 0x3ac98917, 0xc3dccef3, 0x4032e0d0, X, 0x8128f18d, 0x687d9905, 0x5dff718b, 0xd6de0b9c);
  }

  lemma HelloR2L4(X: seq<Word>)
    requires |X| == 16
    requires X[2] == 0x00000000 && X[7] == 0x00000000 && X[12] == 0x00000000 && X[13] == 0x00000000
    ensures Run(Round2, Regs(0x8128f18d, 0xd6de0b9c, 0x5dff718b, 0x687d9905), X, Round2Ops, 12) == Run(Round2, Regs(0xf4468fac, 0x1e58bdd5, 0x9978d034, 0x5ad7c223), X, Round2Ops, 16)
  {
    Round2Line4(0x8128f18d, 0xd6de0b9c, 0x5dff718b, 0x687d9905, X, 0xf4468fac, 0x5ad7c223, 0x9978d034, 0x1e58bdd5);
  }

  lemma HelloR2(X: seq<Word>)
    requires |X| == 16
    requires X[0] == 0x6c6c6568 && X[1] == 0x0000806f && X[2] == 0x00000000 && X[3] == 0x00000000
    requires X[4] == 0x00000000 && X[5] == 0x00000000 && X[6] == 0x00000000 && X[7] == 0x00000000
    requires X[8] == 0x00000000 && X[9] == 0x00000000 && X[10] == 0x00000000 && X[11] == 0x00000000
    requires X[12] == 0x00000000 && X[13] == 0x00000000 && X[14] == 0x00000028 && X[15] == 0x00000000
    ensures Run(Round2, Regs(0x450959ef, 0xb693b95c, 0xd8f68bbf, 0xff9580ae), X, Round2Ops, 0) == Regs(0xf4468fac, 0x1e58bdd5, 0x9978d034, 0x5ad7c223)
  {
    HelloR2L1(X);
    HelloR2L2(X);
    HelloR2L3(X);
    HelloR2L4(X);
  }

  lemma HelloR3L1(X: seq<Word>)
    requires |X| == 16
    requires X[5] == 0x00000000 && X[8] == 0x00000000 && X[11] == 0x00000000 && X[14] == 0x00000028
    ensures Run(Round3, Regs(0xf4468fac, 0x1e58bdd5, 0x9978d034, 0x5ad7c223), X, Round3Ops, 0) == Run(Round3, Regs(0x41e048e2, 0x7841b1f9, 0x35415cb5, 0x90cd862a), X, Round3Ops, 4)
  {
    Round3Line1(0xf4468fac, 0x1e58bdd5, 0x9978d034, 0x5ad7c223, X, 0x41e048e2, 0x90cd862a, 0x35415cb5, 0x7841b1f9);
  }

  lemma HelloR3L2(X: seq<Word>)
    requires |X| == 16
    requires X[1] == 0x0000806f && X[4] == 0x00000000 && X[7] == 0x00000000 && X[10] == 0x00000000
    ensures Run(Round3, Regs(0x41e048e2, 0x7841b1f9, 0x35415cb5, 0x90cd862a), X, Round3Ops, 4) == Run(Round3, Regs(0xbf13a1b5, 0xb200fe58, 0x7ca5af9e, 0xbc2a082a), X, Round3Ops, 8)
  {
    Round3Line2(0x41e048e2, 0x7841b1f9, 0x35415cb5, 0x90cd862a, X, 0xbf13a1b5, 0xbc2a082a, 0x7ca5af9e, 0xb200fe58);
  }

  lemma HelloR3L3(X: seq<Word>)
    requires |X| == 16
    requires X[0] == 0x6c6c6568 && X[3] == 0x00000000 && X[6] == 0x00000000 && X[13] == 0x00000000
    ensures Run(Round3, Regs(0xbf13a1b5, 0xb200fe58, 0x7ca5af9e, 0xbc2a082a), X, Round3Ops, 8) == Run(Round3, Regs(0x55e8a4cd, 0xdd36cea8, 0x9b3519ab, 0x823d6241), X, Round3Ops, 12)
  {
    Round3Line3(0xbf13a1b5, 0xb200fe58, 0x7ca5af9e, 0xbc2a082a, X, 0x55e8a4cd, 0x823d6241, 0x9b3519ab, 0xdd36cea8);
  }

  lemma HelloR3L4(X: seq<Word>)
    requires |X| == 16
    requires X[2] == 0x00000000 && X[9] == 0x00000000 && X[12] == 0x00000000 && X[15] == 0x00000000
    ensures Run(Round3, Regs(0x55e8a4cd, 0xdd36cea8, 0x9b3519ab, 0x823d6241), X, Round3Ops, 12) == Run(Round3, Regs(0x1cf97337, 0xcd289f17, 0x45677c62, 0xb9fc4957), X, Round3Ops, 16)
  {
    Round3Line4(0x55e8a4cd, 0xdd36cea8, 0x9b3519ab, 0x823d6241, X, 0x1cf97337, 0xb9fc4957, 0x45677c62, 0xcd289f17);
  }

  lemma HelloR3(X: seq<Word>)
    requires |X| == 16
    requires X[0] == 0x6c6c6568 && X[1] == 0x0000806f && X[2] == 0x00000000 && X[3] == 0x00000000
    requires X[4] == 0x00000000 && X[5] == 0x00000000 && X[6] == 0x00000000 && X[7] == 0x00000000
    requires X[8] == 0x00000000 && X[9] == 0x00000000 && X[10] == 0x00000000 && X[11] == 0x00000000
    requires X[12] == 0x00000000 && X[13] == 0x00000000 && X[14] == 0x00000028 && X[15] == 0x00000000
    ensures Run(Round3, Regs(0xf4468fac, 0x1e58bdd5, 0x9978d034, 0x5ad7c223), X, Round3Ops, 0) == Regs(0x1cf97337, 0xcd289f17, 0x45677c62, 0xb9fc4957)
  {
    HelloR3L1(X);
    HelloR3L2(X);
    HelloR3L3(X);
    HelloR3L4(X);
  }

  lemma HelloR4L1(X: seq<Word>)
    requires |X| == 16
    requires X[0] == 0x6c6c6568 && X[5] == 0x00000000 && X[7] == 0x00000000 && X[14] == 0x00000028
    ensures Run(Round4, Regs(0x1cf97337, 0xcd289f17, 0x45677c62, 0xb9fc4957), X, Round4Ops, 0) == Run(Round4, Regs(0xc4184f18, 0xf3950d87, 0x8308a3cc, 0x227e2fdb), X, Round4Ops, 4)
  {
    Round4Line1(0x1cf97337, 0xcd289f17, 0x45677c62, 0xb9fc4957, X, 0xc4184f18, 0x227e2fdb, 0x8308a3cc, 0xf3950d87);
  }

  lemma HelloR4L2(X: seq<Word>)
    requires |X| == 16
    requires X[1] == 0x0000806f && X[3] == 0x00000000 && X[10] == 0x00000000 && X[12] == 0x00000000
    ensures Run(Round4, Regs(0xc4184f18, 0xf3950d87, 0x8308a3cc, 0x227e2fdb), X, Round4Ops, 4) == Run(Round4, Regs(0x77dedf30, 0x63d304c3, 0x2fe7c1f5, 0x4f1b6427), X, Round4Ops, 8)
  {
    Round4Line2(0xc4184f18, 0xf3950d87, 0x8308a3cc, 0x227e2fdb, X, 0x77dedf30, 0x4f1b6427, 0x2fe7c1f5, 0x63d304c3);
  }

  lemma HelloR4L3(X: seq<Word>)
    requires |X| == 16
    requires X[6] == 0x00000000 && X[8] == 0x00000000 && X[13] == 0x00000000 && X[15] == 0x00000000
    ensures Run(Round4, Regs(0x77dedf30, 0x63d304c3, 0x2fe7c1f5, 0x4f1b6427), X, Round4Ops, 8) == Run(Round4, Regs(0x49c1f033, 0x6560b9b9, 0x21064162, 0x96d9ec50), X, Round4Ops, 12)
  {
    Round4Line3(0x77dedf30, 0x63d304c3, 0x2fe7c1f5, 0x4f1b6427, X, 0x49c1f033, 0x96d9ec50, 0x21064162, 0x6560b9b9);
  }

  lemma HelloR4L4(X: seq<Word>)
    requires |X| == 16
    requires X[2] == 0x00000000 && X[4] == 0x00000000 && X[9] == 0x00000000 && X[11] == 0x00000000
    ensures Run(Round4, Regs(0x49c1f033, 0x6560b9b9, 0x21064162, 0x96d9ec50), X, Round4Ops, 12) == Run(Round4, Regs(0xc2fb1e5c, 0x865ca033, 0xf8e294bb, 0x8292c29a), X, Round4Ops, 16)
  {
    Round4Line4(0x49c1f033, 0x6560b9b9, 0x21064162, 0x96d9ec50, X, 0xc2fb1e5c, 0x8292c29a, 0xf8e294bb, 0x865ca033);
  }

  lemma HelloR4(X: seq<Word>)
    requires |X| == 16
    requires X[0] == 0x6c6c6568 && X[1] == 0x0000806f && X[2] == 0x00000000 && X[3] == 0x00000000
    requires X[4] == 0x00000000 && X[5] == 0x00000000 && X[6] == 0x00000000 && X[7] == 0x00000000
    requires X[8] == 0x00000000 && X[9] == 0x00000000 && X[10] == 0x00000000 && X[11] == 0x00000000
    requires X[12] == 0x00000000 && X[13] == 0x00000000 && X[14] == 0x00000028 && X[15] == 0x00000000
    ensures Run(Round4, Regs(0x1cf97337, 0xcd289f17, 0x45677c62, 0xb9fc4957), X, Round4Ops, 0) == Regs(0xc2fb1e5c, 0x865ca033, 0xf8e294bb, 0x8292c29a)
  {
    HelloR4L1(X);
    HelloR4L2(X);
    HelloR4L3(X);
    HelloR4L4(X);
  }

  lemma HelloCompress(X: seq<Word>)
    requires |X| == 16
    requires X[0] == 0x6c6c6568 && X[1] == 0x0000806f && X[2] == 0x00000000 && X[3] == 0x00000000
    requires X[4] == 0x00000000 && X[5] == 0x00000000 && X[6] == 0x00000000 && X[7] == 0x00000000
    requires X[8] == 0x00000000 && X[9] == 0x00000000 && X[10] == 0x00000000 && X[11] == 0x00000000
    requires X[12] == 0x00000000 && X[13] == 0x00000000 && X[14] == 0x00000028 && X[15] == 0x00000000
    ensures Compress(Regs(0x67452301, 0xefcdab89, 0x98badcfe, 0x10325476), X) == Regs(0x2a40415d, 0x762a4bbc, 0x919d71b9, 0x92c51710)
  {
    HelloR1(X);
    HelloR2(X);
    HelloR3(X);
    HelloR4(X);
  }

  lemma HelloHash()
    ensures HashBlocks(Init, PaddedWords(HelloMessage)) == Regs(0x2a40415d, 0x762a4bbc, 0x919d71b9, 0x92c51710)
  {
    HelloWord0();
    HelloWord1();
    HelloWord2();
    HelloWord3();
    HelloWord4();
    HelloWord5();
    HelloWord6();
    HelloWord7();
    HelloWord8();
    HelloWord9();
    HelloWord10();
    HelloWord11();
    HelloWord12();
    HelloWord13();
    HelloWord14();
    HelloWord15();
    OneBlock(Init, PaddedWords(HelloMessage));
    HelloCompress(PaddedWords(HelloMessage));
  }

  lemma HelloHex0()
    ensures Hex(WordBytes(0x2a40415d)) == "5d41402a"
  {
    HexOfWordBytes(0x2a40415d);
  }

  lemma HelloHex1()
    ensures Hex(WordBytes(0x762a4bbc)) == "bc4b2a76"
  {
    HexOfWordBytes(0x762a4bbc);
  }

  lemma HelloHex2()
    ensures Hex(WordBytes(0x919d71b9)) == "b9719d91"
  {
    HexOfWordBytes(0x919d71b9);
  }

  lemma HelloHex3()
    ensures Hex(WordBytes(0x92c51710)) == "1017c592"
  {
    HexOfWordBytes(0x92c51710);
  }

  lemma HelloText()
    ensures "5d41402a" + "bc4b2a76" + "b9719d91" + "1017c592" == "5d41402abc4b2a76b9719d911017c592"
  {
  }

  lemma HelloDigest()
    ensures Md5Hex(HelloMessage) == "5d41402abc4b2a76b9719d911017c592"
  {
    HelloHash();
    HelloHex0();
    HelloHex1();
    HelloHex2();
    HelloHex3();
    DigestOf(HelloMessage, Regs(0x2a40415d, 0x762a4bbc, 0x919d71b9, 0x92c51710), "5d41402a", "bc4b2a76", "b9719d91", "1017c592");
    HelloText();
  }

  /** The five bytes of "world". */
  const WorldMessage: seq<Byte> := [0x77, 0x6f, 0x72, 0x6c, 0x64]

  lemma WorldWord0()
    ensures PaddedWords(WorldMessage)[0] == 0x6c726f77
  {
    PaddedWordAt(WorldMessage, 0);
  }

  lemma WorldWord1()
    ensures PaddedWords(WorldMessage)[1] == 0x00008064
  {
    PaddedWordAt(WorldMessage, 1);
  }

  lemma WorldWord2()
    ensures PaddedWords(WorldMessage)[2] == 0x00000000
  {
    PaddedWordAt(WorldMessage, 2);
  }

  lemma WorldWord3()
    ensures PaddedWords(WorldMessage)[3] == 0x00000000
  {
    PaddedWordAt(WorldMessage, 3);
  }

  lemma WorldWord4()
    ensures PaddedWords(WorldMessage)[4] == 0x00000000
  {
    PaddedWordAt(WorldMessage, 4);
  }

  lemma WorldWord5()
    ensures PaddedWords(WorldMessage)[5] == 0x00000000
  {
    PaddedWordAt(WorldMessage, 5);
  }

  lemma WorldWord6()
    ensures PaddedWords(WorldMessage)[6] == 0x00000000
  {
    PaddedWordAt(WorldMessage, 6);
  }

  lemma WorldWord7()
    ensures PaddedWords(WorldMessage)[7] == 0x00000000
  {
    PaddedWordAt(WorldMessage, 7);
  }

  lemma WorldWord8()
    ensures PaddedWords(WorldMessage)[8] == 0x00000000
  {
    PaddedWordAt(WorldMessage, 8);
  }

  lemma WorldWord9()
    ensures PaddedWords(WorldMessage)[9] == 0x00000000
  {
    PaddedWordAt(WorldMessage, 9);
  }

  lemma WorldWord10()
    ensures PaddedWords(WorldMessage)[10] == 0x00000000
  {
    PaddedWordAt(WorldMessage, 10);
  }

  lemma WorldWord11()
    ensures PaddedWords(WorldMessage)[11] == 0x00000000
  {
    PaddedWordAt(WorldMessage, 11);
  }

  lemma WorldWord12()
    ensures PaddedWords(WorldMessage)[12] == 0x00000000
  {
    PaddedWordAt(WorldMessage, 12);
  }

  lemma WorldWord13()
    ensures PaddedWords(WorldMessage)[13] == 0x00000000
  {
    PaddedWordAt(WorldMessage, 13);
  }

  lemma WorldWord14()
    ensures PaddedWords(WorldMessage)[14] == 0x00000028
  {
    LengthBytesAre(5, 40, 0);
    PaddedWordAt(WorldMessage, 14);
  }

  lemma WorldWord15()
    ensures PaddedWords(WorldMessage)[15] == 0x00000000
  {
    LengthBytesAre(5, 40, 0);
    PaddedWordAt(WorldMessage, 15);
  }

  lemma WorldR1L1(X: seq<Word>)
    requires |X| == 16
    requires X[0] == 0x6c726f77 && X[1] == 0x00008064 && X[2] == 0x00000000 && X[3] == 0x00000000
    ensures Run(Round1, Regs(0x67452301, 0xefcdab89, 0x98badcfe, 0x10325476), X, Round1Ops, 0) == Run(Round1, Regs(0xde57a2aa, 0x906f7fd1, 0x480d8669, 0x67086f28), X, Round1Ops, 4)
  {
    Round1Line1(0x67452301, 0xefcdab89, 0x98badcfe, 0x10325476, X, 0xde57a2aa, 0x67086f28, 0x480d8669, 0x906f7fd1);
  }

  lemma WorldR1L2(X: seq<Word>)
    requires |X| == 16
    requires X[4] == 0x00000000 && X[5] == 0x00000000 && X[6] == 0x00000000 && X[7] == 0x00000000
    ensures Run(Round1, Regs(0xde57a2aa, 0x906f7fd1, 0x480d8669, 0x67086f28), X, Round1Ops, 4) == Run(Round1, Regs(0x00cbe0ee, 0xda6322aa, 0x931b02ad, 0xfa8d205b), X, Round1Ops, 8)
  {
    Round1Line2(0xde57a2aa, 0x906f7fd1, 0x480d8669, 0x67086f28, X, 0x00cbe0ee, 0xfa8d205b, 0x931b02ad, 0xda6322aa);
  }

  lemma WorldR1L3(X: seq<Word>)
    requires |X| == 16
    requires X[8] == 0x00000000 && X[9] == 0x00000000 && X[10] == 0x00000000 && X[11] == 0x00000000
    ensures Run(Round1, Regs(0x00cbe0ee, 0xda6322aa, 0x931b02ad, 0xfa8d205b), X, Round1Ops, 8) == Run(Round1, Regs(0x48218238, 0x93fd1ded, 0xdbddb2c3, 0x19ccf848), X, Round1Ops, 12)
  {
    Round1Line3(0x00cbe0ee, 0xda6322aa, 0x931b02ad, 0xfa8d205b, X, 0x48218238, 0x19ccf848, 0xdbddb2c3, 0x93fd1ded);
  }

  lemma WorldR1L4(X: seq<Word>)
    requires |X| == 16
    requires X[12] == 0x00000000 && X[13] == 0x00000000 && X[14] == 0x00000028 && X[15] == 0x00000000
    ensures Run(Round1, Regs(0x48218238, 0x93fd1ded, 0xdbddb2c3, 0x19ccf848), X, Round1Ops, 12) == Run(Round1, Regs(0x5bbf2b94, 0x0560ed0a, 0x90369272, 0x8bf9564a), X, Round1Ops, 16)
  {
    Round1Line4(0x48218238, 0x93fd1ded, 0xdbddb2c3, 0x19ccf848, X, 0x5bbf2b94, 0x8bf9564a, 0x90369272, 0x0560ed0a);
  }

  lemma WorldR1(X: seq<Word>)
    requires |X| == 16
    requires X[0] == 0x6c726f77 && X[1] == 0x00008064 && X[2] == 0x00000000 && X[3] == 0x00000000
    requires X[4] == 0x00000000 && X[5] == 0x00000000 && X[6] == 0x00000000 && X[7] == 0x00000000
    requires X[8] == 0x00000000 && X[9] == 0x00000000 && X[10] == 0x00000000 && X[11] == 0x00000000
    requires X[12] == 0x00000000 && X[13] == 0x00000000 && X[14] == 0x00000028 && X[15] == 0x00000000
    ensures Run(Round1, Regs(0x67452301, 0xefcdab89, 0x98badcfe, 0x10325476), X, Round1Ops, 0) == Regs(0x5bbf2b94, 0x0560ed0a, 0x90369272, 0x8bf9564a)
  {
    WorldR1L1(X);
    WorldR1L2(X);
    WorldR1L3(X);
    WorldR1L4(X);
  }

  lemma WorldR2L1(X: seq<Word>)
    requires |X| == 16
    requires X[0] == 0x6c726f77 && X[1] == 0x00008064 && X[6] == 0x00000000 && X[11] == 0x00000000
    ensures Run(Round2, Regs(0x5bbf2b94, 0x0560ed0a, 0x90369272, 0x8bf9564a), X, Round2Ops, 0) == Run(Round2, Regs(0x6df39f96, 0x474a85f4, 0x01dcb003, 0xc804e839), X, Round2Ops, 4)
  {
    Round2Line1(0x5bbf2b94, 0x0560ed0a, 0x90369272, 0x8bf9564a, X, 0x6df39f96, 0xc804e839, 0x01dcb003, 0x474a85f4);
  }

  lemma WorldR2L2(X: seq<Word>)
    requires |X| == 16
    requires X[4] == 0x00000000 && X[5] == 0x00000000 && X[10] == 0x00000000 && X[15] == 0x00000000
    ensures Run(Round2, Regs(0x6df39f96, 0x474a85f4, 0x01dcb003, 0xc804e839), X, Round2Ops, 4) == Run(Round2, Regs(0x06b28aa4, 0x4de8a511, 0x0609c2d1, 0xbdb78ac5), X, Round2Ops, 8)
  {
    Round2Line2(0x6df39f96, 0x474a85f4, 0x01dcb003, 0xc804e839, X, 0x06b28aa4, 0xbdb78ac5, 0x0609c2d1, 0x4de8a511);
  }

  lemma WorldR2L3(X: seq<Word>)
    requires |X| == 16
    requires X[3] == 0x00000000 && X[8] == 0x00000000 && X[9] == 0x00000000 && X[14] == 0x00000028
    ensures Run(Round2, Regs(0x06b28aa4, 0x4de8a511, 0x0609c2d1, 0xbdb78ac5), X, Round2Ops, 8) == Run(Round2, Regs(0x558bb878, 0x4c695f78, 0xa8302447, 0x05fbe015), X, Round2Ops, 12)
  {
    Round2Line3(0x06b28aa4, 0x4de8a511, 0x0609c2d1, 0xbdb78ac5, X, 0x558bb878, 0x05fbe015, 0xa8302447, 0x4c695f78);
  }

  lemma WorldR2L4(X: seq<Word>)
    requires |X| == 16
    requires X[2] == 0x00000000 && X[7] == 0x00000000 && X[12] == 0x00000000 && X[13] == 0x00000000
    ensures Run(Round2, Regs(0x558bb878, 0x4c695f78, 0xa8302447, 0x05fbe015), X, Round2Ops, 12) == Run(Round2, Regs(0xc786196d, 0xfc359962, 0xbeac93d4, 0x31452efb), X, Round2Ops, 16)
  {
    Round2Line4(0x558bb878, 0x4c695f78, 0xa8302447, 0x05fbe015, X, 0xc786196d, 0x31452efb, 0xbeac93d4, 0xfc359962);
  }

  lemma WorldR2(X: seq<Word>)
    requires |X| == 16
    requires X[0] == 0x6c726f77 && X[1] == 0x00008064 && X[2] == 0x00000000 && X[3] == 0x00000000
    requires X[4] == 0x00000000 && X[5] == 0x00000000 && X[6] == 0x00000000 && X[7] == 0x00000000
    requires X[8] == 0x00000000 && X[9] == 0x00000000 && X[10] == 0x00000000 && X[11] == 0x00000000
    requires X[12] == 0x00000000 && X[13] == 0x00000000 && X[14] == 0x00000028 && X[15] == 0x00000000
    ensures Run(Round2, Regs(0x5bbf2b94, 0x0560ed0a, 0x90369272, 0x8bf9564a), X, Round2Ops, 0) == Regs(0xc786196d, 0xfc359962, 0xbeac93d4, 0x31452efb)
  {
    WorldR2L1(X);
    WorldR2L2(X);
    WorldR2L3(X);
    WorldR2L4(X);
  }

  lemma WorldR3L1(X: seq<Word>)
    requires |X| == 16
    requires X[5] == 0x00000000 && X[8] == 0x00000000 && X[11] == 0x00000000 && X[14] == 0x00000028
    ensures Run(Round3, Regs(0xc786196d, 0xfc359962, 0xbeac93d4, 0x31452efb), X, Round3Ops, 0) == Run(Round3, Regs(0xb1fd0925, 0xe051aa40, 0x96fe795c, 0x8b458685), X, Round3Ops, 4)
  {
    Round3Line1(0xc786196d, 0xfc359962, 0xbeac93d4, 0x31452efb, X, 0xb1fd0925, 0x8b458685, 0x96fe795c, 0xe051aa40);
  }

  lemma WorldR3L2(X: seq<Word>)
    requires |X| == 16
    requires X[1] == 0x00008064 && X[4] == 0x00000000 && X[7] == 0x00000000 && X[10] == 0x00000000
    ensures Run(Round3, Regs(0xb1fd0925, 0xe051aa40, 0x96fe795c, 0x8b458685), X, Round3Ops, 4) == Run(Round3, Regs(0x2abe40a5, 0xa8642c9e, 0x2fa518da, 0xda0d7a3e), X, Round3Ops, 8)
  {
    Round3Line2(0xb1fd0925, 0xe051aa40, 0x96fe795c, 0x8b458685, X, 0x2abe40a5, 0xda0d7a3e, 0x2fa518da, 0xa8642c9e);
  }

  lemma WorldR3L3(X: seq<Word>)
    requires |X| == 16
    requires X[0] == 0x6c726f77 && X[3] == 0x00000000 && X[6] == 0x00000000 && X[13] == 0x00000000
    ensures Run(Round3, Regs(0x2abe40a5, 0xa8642c9e, 0x2fa518da, 0xda0d7a3e), X, Round3Ops, 8) == Run(Round3, Regs(0xbac50af9, 0x82a07d13, 0x76b56ae7, 0xe5486e6a), X, Round3Ops, 12)
  {
    Round3Line3(0x2abe40a5, 0xa8642c9e, 0x2fa518da, 0xda0d7a3e, X, 0xbac50af9, 0xe5486e6a, 0x76b56ae7, 0x82a07d13);
  }

  lemma WorldR3L4(X: seq<Word>)
    requires |X| == 16
    requires X[2] == 0x00000000 && X[9] == 0x00000000 && X[12] == 0x00000000 && X[15] == 0x00000000
    ensures Run(Round3, Regs(0xbac50af9, 0x82a07d13, 0x76b56ae7, 0xe5486e6a), X, Round3Ops, 12) == Run(Round3, Regs(0xe215ca1d, 0xf8e84246, 0x17469178, 0x0947912e), X, Round3Ops, 16)
  {
    Round3Line4(0xbac50af9, 0x82a07d13, 0x76b56ae7, 0xe5486e6a, X, 0xe215ca1d, 0x0947912e, 0x17469178, 0xf8e84246);
  }

  lemma WorldR3(X: seq<Word>)
    requires |X| == 16
    requires X[0] == 0x6c726f77 && X[1] == 0x00008064 && X[2] == 0x00000000 && X[3] == 0x00000000
    requires X[4] == 0x00000000 && X[5] == 0x00000000 && X[6] == 0x00000000 && X[7] == 0x00000000
    requires X[8] == 0x00000000 && X[9] == 0x00000000 && X[10] == 0x00000000 && X[11] == 0x00000000
    requires X[12] == 0x00000000 && X[13] == 0x00000000 && X[14] == 0x00000028 && X[15] == 0x00000000
    ensures Run(Round3, Regs(0xc786196d, 0xfc359962, 0xbeac93d4, 0x31452efb), X, Round3Ops, 0) == Regs(0xe215ca1d, 0xf8e84246, 0x17469178, 0x0947912e)
  {
    WorldR3L1(X);
    WorldR3L2(X);
    WorldR3L3(X);
    WorldR3L4(X);
  }

  lemma WorldR4L1(X: seq<Word>)
    requires |X| == 16
    requires X[0] == 0x6c726f77 && X[5] == 0x00000000 && X[7] == 0x00000000 && X[14] == 0x00000028
    ensures Run(Round4, Regs(0xe215ca1d, 0xf8e84246, 0x17469178, 0x0947912e), X, Round4Ops, 0) == Run(Round4, Regs(0x14ff2411, 0xab273330, 0x038e7444, 0x3bf57d53), X, Round4Ops, 4)
  {
    Round4Line1(0xe215ca1d, 0xf8e84246, 0x17469178, 0x0947912e, X, 0x14ff2411, 0x3bf57d53, 0x038e7444, 0xab273330);
  }

  lemma WorldR4L2(X: seq<Word>)
    requires |X| == 16
    requires X[1] == 0x00008064 && X[3] == 0x00000000 && X[10] == 0x00000000 && X[12] == 0x00000000
    ensures Run(Round4, Regs(0x14ff2411, 0xab273330, 0x038e7444, 0x3bf57d53), X, Round4Ops, 4) == Run(Round4, Regs(0x6a38a649, 0x59a48e7f, 0xc677347a, 0xedd366ca), X, Round4Ops, 8)
  {
    Round4Line2(0x14ff2411, 0xab273330, 0x038e7444, 0x3bf57d53, X, 0x6a38a649, 0xedd366ca, 0xc677347a, 0x59a48e7f);
  }

  lemma WorldR4L3(X: seq<Word>)
    requires |X| == 16
    requires X[6] == 0x00000000 && X[8] == 0x00000000 && X[13] == 0x00000000 && X[15] == 0x00000000
    ensures Run(Round4, Regs(0x6a38a649, 0x59a48e7f, 0xc677347a, 0xedd366ca), X, Round4Ops, 8) == Run(Round4, Regs(0x48d875dc, 0x490ad22f, 0x38c5564c, 0x3bd5a60d), X, Round4Ops, 12)
  {
    Round4Line3(0x6a38a649, 0x59a48e7f, 0xc677347a, 0xedd366ca, X, 0x48d875dc, 0x3bd5a60d, 0x38c5564c, 0x490ad22f);
  }

  lemma WorldR4L4(X: seq<Word>)
    requires |X| == 16
    requires X[2] == 0x00000000 && X[4] == 0x00000000 && X[9] == 0x00000000 && X[11] == 0x00000000
    ensures Run(Round4, Regs(0x48d875dc, 0x490ad22f, 0x38c5564c, 0x3bd5a60d), X, Round4Ops, 12) == Run(Round4, Regs(0xcfeb567c, 0x9633cb17, 0xe9476e59, 0xd703a07c), X, Round4Ops, 16)
  {
    Round4Line4(0x48d875dc, 0x490ad22f, 0x38c5564c, 0x3bd5a60d, X, 0xcfeb567c, 0xd703a07c, 0xe9476e59, 0x9633cb17);
  }

  lemma WorldR4(X: seq<Word>)
    requires |X| == 16
    requires X[0] == 0x6c726f77 && X[1] == 0x00008064 && X[2] == 0x00000000 && X[3] == 0x00000000
    requires X[4] == 0x00000000 && X[5] == 0x00000000 && X[6] == 0x00000000 && X[7] == 0x00000000
    requires X[8] == 0x00000000 && X[9] == 0x00000000 && X[10] == 0x00000000 && X[11] == 0x00000000
    requires X[12] == 0x00000000 && X[13] == 0x00000000 && X[14] == 0x00000028 && X[15] == 0x00000000
    ensures Run(Round4, Regs(0xe215ca1d, 0xf8e84246, 0x17469178, 0x0947912e), X, Round4Ops, 0) == Regs(0xcfeb567c, 0x9633cb17, 0xe9476e59, 0xd703a07c)
  {
    WorldR4L1(X);
    WorldR4L2(X);
    WorldR4L3(X);
    WorldR4L4(X);
  }

  lemma WorldCompress(X: seq<Word>)
    requires |X| == 16
    requires X[0] == 0x6c726f77 && X[1] == 0x00008064 && X[2] == 0x00000000 && X[3] == 0x00000000
    requires X[4] == 0x00000000 && X[5] == 0x00000000 && X[6] == 0x00000000 && X[7] == 0x00000000
    requires X[8] == 0x00000000 && X[9] == 0x00000000 && X[10] == 0x00000000 && X[11] == 0x00000000
    requires X[12] == 0x00000000 && X[13] == 0x00000000 && X[14] == 0x00000028 && X[15] == 0x00000000
    ensures Compress(Regs(0x67452301, 0xefcdab89, 0x98badcfe, 0x10325476), X) == Regs(0x3730797d, 0x860176a0, 0x82024b57, 0xe735f4f2)
  {
    WorldR1(X);
    WorldR2(X);
    WorldR3(X);
    WorldR4(X);
  }

  lemma WorldHash()
    ensures HashBlocks(Init, PaddedWords(WorldMessage)) == Regs(0x3730797d, 0x860176a0, 0x82024b57, 0xe735f4f2)
  {
    WorldWord0();
    WorldWord1();
    WorldWord2();
    WorldWord3();
    WorldWord4();
    WorldWord5();
    WorldWord6();
    WorldWord7();
    WorldWord8();
    WorldWord9();
    WorldWord10();
    WorldWord11();
    WorldWord12();
    WorldWord13();
    WorldWord14();
    WorldWord15();
    OneBlock(Init, PaddedWords(WorldMessage));
    WorldCompress(PaddedWords(WorldMessage));
  }

  lemma WorldHex0()
    ensures Hex(WordBytes(0x3730797d)) == "7d793037"
  {
    HexOfWordBytes(0x3730797d);
  }

  lemma WorldHex1()
    ensures Hex(WordBytes(0x860176a0)) == "a0760186"
  {
    HexOfWordBytes(0x860176a0);
  }

  lemma WorldHex2()
    ensures Hex(WordBytes(0x82024b57)) == "574b0282"
  {
    HexOfWordBytes(0x82024b57);
  }

  lemma WorldHex3()
    ensures Hex(WordBytes(0xe735f4f2)) == "f2f435e7"
  {
    HexOfWordBytes(0xe735f4f2);
  }

  lemma WorldText()
    ensures "7d793037" + "a0760186" + "574b0282" + "f2f435e7" == "7d793037a0760186574b0282f2f435e7"
  {
  }

  lemma WorldDigest()
    ensures Md5Hex(WorldMessage) == "7d793037a0760186574b0282f2f435e7"
  {
    WorldHash();
    WorldHex0();
    WorldHex1();
    WorldHex2();
    WorldHex3();
    DigestOf(WorldMessage, Regs(0x3730797d, 0x860176a0, 0x82024b57, 0xe735f4f2), "7d793037", "a0760186", "574b0282", "f2f435e7");
    WorldText();
  }

  /** The three UTF-8 bytes of U+4E2D. */
  const ZhongMessage: seq<Byte> := [0xe4, 0xb8, 0xad]

  lemma ZhongWord0()
    ensures PaddedWords(ZhongMessage)[0] == 0x80adb8e4
  {
    PaddedWordAt(ZhongMessage, 0);
  }

  lemma ZhongWord1()
    ensures PaddedWords(ZhongMessage)[1] == 0x00000000
  {
    PaddedWordAt(ZhongMessage, 1);
  }

  lemma ZhongWord2()
    ensures PaddedWords(ZhongMessage)[2] == 0x00000000
  {
    PaddedWordAt(ZhongMessage, 2);
  }

  lemma ZhongWord3()
    ensures PaddedWords(ZhongMessage)[3] == 0x00000000
  {
    PaddedWordAt(ZhongMessage, 3);
  }

  lemma ZhongWord4()
    ensures PaddedWords(ZhongMessage)[4] == 0x00000000
  {
    PaddedWordAt(ZhongMessage, 4);
  }

  lemma ZhongWord5()
    ensures PaddedWords(ZhongMessage)[5] == 0x00000000
  {
    PaddedWordAt(ZhongMessage, 5);
  }

  lemma ZhongWord6()
    ensures PaddedWords(ZhongMessage)[6] == 0x00000000
  {
    PaddedWordAt(ZhongMessage, 6);
  }

  lemma ZhongWord7()
    ensures PaddedWords(ZhongMessage)[7] == 0x00000000
  {
    PaddedWordAt(ZhongMessage, 7);
  }

  lemma ZhongWord8()
    ensures PaddedWords(ZhongMessage)[8] == 0x00000000
  {
    PaddedWordAt(ZhongMessage, 8);
  }

  lemma ZhongWord9()
    ensures PaddedWords(ZhongMessage)[9] == 0x00000000
  {
    PaddedWordAt(ZhongMessage, 9);
  }

  lemma ZhongWord10()
    ensures PaddedWords(ZhongMessage)[10] == 0x00000000
  {
    PaddedWordAt(ZhongMessage, 10);
  }

  lemma ZhongWord11()
    ensures PaddedWords(ZhongMessage)[11] == 0x00000000
  {
    PaddedWordAt(ZhongMessage, 11);
  }

  lemma ZhongWord12()
    ensures PaddedWords(ZhongMessage)[12] == 0x00000000
  {
    PaddedWordAt(ZhongMessage, 12);
  }

  lemma ZhongWord13()
    ensures PaddedWords(ZhongMessage)[13] == 0x00000000
  {
    PaddedWordAt(ZhongMessage, 13);
  }

  lemma ZhongWord14()
    ensures PaddedWords(ZhongMessage)[14] == 0x00000018
  {
    LengthBytesAre(3, 24, 0);
    PaddedWordAt(ZhongMessage, 14);
  }

  lemma ZhongWord15()
    ensures PaddedWords(ZhongMessage)[15] == 0x00000000
  {
    LengthBytesAre(3, 24, 0);
    PaddedWordAt(ZhongMessage, 15);
  }

  lemma ZhongR1L1(X: seq<Word>)
    requires |X| == 16
    requires X[0] == 0x80adb8e4 && X[1] == 0x00000000 && X[2] == 0x00000000 && X[3] == 0x00000000
    ensures Run(Round1, Regs(0x67452301, 0xefcdab89, 0x98badcfe, 0x10325476), X, Round1Ops, 0) == Run(Round1, Regs(0xfbfc5935, 0x1281f922, 0x135b28f0, 0x8595d781), X, Round1Ops, 4)
  {
    Round1Line1(0x67452301, 0xefcdab89, 0x98badcfe, 0x10325476, X, 0xfbfc5935, 0x8595d781, 0x135b28f0, 0x1281f922);
  }

  lemma ZhongR1L2(X: seq<Word>)
    requires |X| == 16
    requires X[4] == 0x00000000 && X[5] == 0x00000000 && X[6] == 0x00000000 && X[7] == 0x00000000
    ensures Run(Round1, Regs(0xfbfc5935, 0x1281f922, 0x135b28f0, 0x8595d781), X, Round1Ops, 4) == Run(Round1, Regs(0x594dbbe6, 0xc2a02595, 0x4085c103, 0x6ebb99d9), X, Round1Ops, 8)
  {
    Round1Line2(0xfbfc5935, 0x1281f922, 0x135b28f0, 0x8595d781, X, 0x594dbbe6, 0x6ebb99d9, 0x4085c103, 0xc2a02595);
  }

  lemma ZhongR1L3(X: seq<Word>)
    requires |X| == 16
    requires X[8] == 0x00000000 && X[9] == 0x00000000 && X[10] == 0x00000000 && X[11] == 0x00000000
    ensures Run(Round1, Regs(0x594dbbe6, 0xc2a02595, 0x4085c103, 0x6ebb99d9), X, Round1Ops, 8) == Run(Round1, Regs(0x7797292c, 0x7c621b7f, 0x1a732b3e, 0x8ec01cf4), X, Round1Ops, 12)
  {
    Round1Line3(0x594dbbe6, 0xc2a02595, 0x4085c103, 0x6ebb99d9, X, 0x7797292c, 0x8ec01cf4, 0x1a732b3e, 0x7c621b7f);
  }

  lemma ZhongR1L4(X: seq<Word>)
    requires |X| == 16
    requires X[12] == 0x00000000 && X[13] == 0x00000000 && X[14] == 0x00000018 && X[15] == 0x00000000
    ensures Run(Round1, Regs(0x7797292c, 0x7c621b7f, 0x1a732b3e, 0x8ec01cf4), X, Round1Ops, 12) == Run(Round1, Regs(0x810721be, 0x86fdb5db, 0x4f69a689, 0x2aa37c2a), X, Round1Ops, 16)
  {
    Round1Line4(0x7797292c, 0x7c621b7f, 0x1a732b3e, 0x8ec01cf4, X, 0x810721be, 0x2aa37c2a, 0x4f69a689, 0x86fdb5db);
  }

  lemma ZhongR1(X: seq<Word>)
    requires |X| == 16
    requires X[0] == 0x80adb8e4 && X[1] == 0x00000000 && X[2] == 0x00000000 && X[3] == 0x00000000
    requires X[4] == 0x00000000 && X[5] == 0x00000000 && X[6] == 0x00000000 && X[7] == 0x00000000
    requires X[8] == 0x00000000 && X[9] == 0x00000000 && X[10] == 0x00000000 && X[11] == 0x00000000
    requires X[12] == 0x00000000 && X[13] == 0x00000000 && X[14] == 0x00000018 && X[15] == 0x00000000
    ensures Run(Round1, Regs(0x67452301, 0xefcdab89, 0x98badcfe, 0x10325476), X, Round1Ops, 0) == Regs(0x810721be, 0x86fdb5db, 0x4f69a689, 0x2aa37c2a)
  {
    ZhongR1L1(X);
    ZhongR1L2(X);
    ZhongR1L3(X);
    ZhongR1L4(X);
  }

  lemma ZhongR2L1(X: seq<Word>)
    requires |X| == 16
    requires X[0] == 0x80adb8e4 && X[1] == 0x00000000 && X[6] == 0x00000000 && X[11] == 0x00000000
    ensures Run(Round2, Regs(0x810721be, 0x86fdb5db, 0x4f69a689, 0x2aa37c2a), X, Round2Ops, 0) == Run(Round2, Regs(0x68dd6b52, 0x5dc90af1, 0x277fbcd3, 0xeba2e4b9), X, Round2Ops, 4)
  {
    Round2Line1(0x810721be, 0x86fdb5db, 0x4f69a689, 0x2aa37c2a, X, 0x68dd6b52, 0xeba2e4b9, 0x277fbcd3, 0x5dc90af1);
  }

  lemma ZhongR2L2(X: seq<Word>)
    requires |X| == 16
    requires X[4] == 0x00000000 && X[5] == 0x00000000 && X[10] == 0x00000000 && X[15] == 0x00000000
    ensures Run(Round2, Regs(0x68dd6b52, 0x5dc90af1, 0x277fbcd3, 0xeba2e4b9), X, Round2Ops, 4) == Run(Round2, Regs(0xfafb9f42, 0x7d05d281, 0xd04474aa, 0xc02a7c13), X, Round2Ops, 8)
  {
    Round2Line2(0x68dd6b52, 0x5dc90af1, 0x277fbcd3, 0xeba2e4b9, X, 0xfafb9f42, 0xc02a7c13, 0xd04474aa, 0x7d05d281);
  }

  lemma ZhongR2L3(X: seq<Word>)
    requires |X| == 16
    requires X[3] == 0x00000000 && X[8] == 0x00000000 && X[9] == 0x00000000 && X[14] == 0x00000018
    ensures Run(Round2, Regs(0xfafb9f42, 0x7d05d281, 0xd04474aa, 0xc02a7c13), X, Round2Ops, 8) == Run(Round2, Regs(0x213d8cae, 0x2473cf4e, 0x836ab2a2, 0xef52e60e), X, Round2Ops, 12)
  {
    Round2Line3(0xfafb9f42, 0x7d05d281, 0xd04474aa, 0xc02a7c13, X, 0x213d8cae, 0xef52e60e, 0x836ab2a2, 0x2473cf4e);
  }

  lemma ZhongR2L4(X: seq<Word>)
    requires |X| == 16
    requires X[2] == 0x00000000 && X[7] == 0x00000000 && X[12] == 0x00000000 && X[13] == 0x00000000
    ensures Run(Round2, Regs(0x213d8cae, 0x2473cf4e, 0x836ab2a2, 0xef52e60e), X, Round2Ops, 12) == Run(Round2, Regs(0x17fd5b8b, 0x03443f40, 0x4210845f, 0x8fd103b2), X, Round2Ops, 16)
  {
    Round2Line4(0x213d8cae, 0x2473cf4e, 0x836ab2a2, 0xef52e60e, X, 0x17fd5b8b, 0x8fd103b2, 0x4210845f, 0x03443f40);
  }

  lemma ZhongR2(X: seq<Word>)
    requires |X| == 16
    requires X[0] == 0x80adb8e4 && X[1] == 0x00000000 && X[2] == 0x00000000 && X[3] == 0x00000000
    requires X[4] == 0x00000000 && X[5] == 0x00000000 && X[6] == 0x00000000 && X[7] == 0x00000000
    requires X[8] == 0x00000000 && X[9] == 0x00000000 && X[10] == 0x00000000 && X[11] == 0x00000000
    requires X[12] == 0x00000000 && X[13] == 0x00000000 && X[14] == 0x00000018 && X[15] == 0x00000000
    ensures Run(Round2, Regs(0x810721be, 0x86fdb5db, 0x4f69a689, 0x2aa37c2a), X, Round2Ops, 0) == Regs(0x17fd5b8b, 0x03443f40, 0x4210845f, 0x8fd103b2)
  {
    ZhongR2L1(X);
    ZhongR2L2(X);
    ZhongR2L3(X);
    ZhongR2L4(X);
  }

  lemma ZhongR3L1(X: seq<Word>)
    requires |X| == 16
    requires X[5] == 0x00000000 && X[8] == 0x00000000 && X[11] == 0x00000000 && X[14] == 0x00000018
    ensures Run(Round3, Regs(0x17fd5b8b, 0x03443f40, 0x4210845f, 0x8fd103b2), X, Round3Ops, 0) == Run(Round3, Regs(0x6b1916ee, 0xf66e4bc1, 0xe72f80ae, 0xf05a38fa), X, Round3Ops, 4)
  {
    Round3Line1(0x17fd5b8b, 0x03443f40, 0x4210845f, 0x8fd103b2, X, 0x6b1916ee, 0xf05a38fa, 0xe72f80ae, 0xf66e4bc1);
  }

  lemma ZhongR3L2(X: seq<Word>)
    requires |X| == 16
    requires X[1] == 0x00000000 && X[4] == 0x00000000 && X[7] == 0x00000000 && X[10] == 0x00000000
    ensures Run(Round3, Regs(0x6b1916ee, 0xf66e4bc1, 0xe72f80ae, 0xf05a38fa), X, Round3Ops, 4) == Run(Round3, Regs(0x05ad9840, 0x539dc4c6, 0xf5e2cc03, 0x308c2ac9), X, Round3Ops, 8)
  {
    Round3Line2(0x6b1916ee, 0xf66e4bc1, 0xe72f80ae, 0xf05a38fa, X, 0x05ad9840, 0x308c2ac9, 0xf5e2cc03, 0x539dc4c6);
  }

  lemma ZhongR3L3(X: seq<Word>)
    requires |X| == 16
    requires X[0] == 0x80adb8e4 && X[3] == 0x00000000 && X[6] == 0x00000000 && X[13] == 0x00000000
    ensures Run(Round3, Regs(0x05ad9840, 0x539dc4c6, 0xf5e2cc03, 0x308c2ac9), X, Round3Ops, 8) == Run(Round3, Regs(0xa76155f2, 0x9b191932, 0x4b1d9bff, 0x72a84ad9), X, Round3Ops, 12)
  {
    Round3Line3(0x05ad9840, 0x539dc4c6, 0xf5e2cc03, 0x308c2ac9, X, 0xa76155f2, 0x72a84ad9, 0x4b1d9bff, 0x9b191932);
  }

  lemma ZhongR3L4(X: seq<Word>)
    requires |X| == 16
    requires X[2] == 0x00000000 && X[9] == 0x00000000 && X[12] == 0x00000000 && X[15] == 0x00000000
    ensures Run(Round3, Regs(0xa76155f2, 0x9b191932, 0x4b1d9bff, 0x72a84ad9), X, Round3Ops, 12) == Run(Round3, Regs(0xd947fd24, 0xeea33902, 0x0990f92d, 0x146d383a), X, Round3Ops, 16)
  {
    Round3Line4(0xa76155f2, 0x9b191932, 0x4b1d9bff, 0x72a84ad9, X, 0xd947fd24, 0x146d383a, 0x0990f92d, 0xeea33902);
  }

  lemma ZhongR3(X: seq<Word>)
    requires |X| == 16
    requires X[0] == 0x80adb8e4 && X[1] == 0x00000000 && X[2] == 0x00000000 && X[3] == 0x00000000
    requires X[4] == 0x00000000 && X[5] == 0x00000000 && X[6] == 0x00000000 && X[7] == 0x00000000
    requires X[8] == 0x00000000 && X[9] == 0x00000000 && X[10] == 0x00000000 && X[11] == 0x00000000
    requires X[12] == 0x00000000 && X[13] == 0x00000000 && X[14] == 0x00000018 && X[15] == 0x00000000
    ensures Run(Round3, Regs(0x17fd5b8b, 0x03443f40, 0x4210845f, 0x8fd103b2), X, Round3Ops, 0) == Regs(0xd947fd24, 0xeea33902, 0x0990f92d, 0x146d383a)
  {
    ZhongR3L1(X);
    ZhongR3L2(X);
    ZhongR3L3(X);
    ZhongR3L4(X);
  }

  lemma ZhongR4L1(X: seq<Word>)
    requires |X| == 16
    requires X[0] == 0x80adb8e4 && X[5] == 0x00000000 && X[7] == 0x00000000 && X[14] == 0x00000018
    ensures Run(Round4, Regs(0xd947fd24, 0xeea33902, 0x0990f92d, 0x146d383a), X, Round4Ops, 0) == Run(Round4, Regs(0xff1b068f, 0x50b47b9b, 0xbfa93239, 0xd0f9c034), X, Round4Ops, 4)
  {
    Round4Line1(0xd947fd24, 0xeea33902, 0x0990f92d, 0x146d383a, X, 0xff1b068f, 0xd0f9c034, 0xbfa93239, 0x50b47b9b);
  }

  lemma ZhongR4L2(X: seq<Word>)
    requires |X| == 16
    requires X[1] == 0x00000000 && X[3] == 0x00000000 && X[10] == 0x00000000 && X[12] == 0x00000000
    ensures Run(Round4, Regs(0xff1b068f, 0x50b47b9b, 0xbfa93239, 0xd0f9c034), X, Round4Ops, 4) == Run(Round4, Regs(0x762008a4, 0x63bd7cab, 0xfdb5db33, 0x9b2d16bf), X, Round4Ops, 8)
  {
    Round4Line2(0xff1b068f, 0x50b47b9b, 0xbfa93239, 0xd0f9c034, X, 0x762008a4, 0x9b2d16bf, 0xfdb5db33, 0x63bd7cab);
  }

  lemma ZhongR4L3(X: seq<Word>)
    requires |X| == 16
    requires X[6] == 0x00000000 && X[8] == 0x00000000 && X[13] == 0x00000000 && X[15] == 0x00000000
    ensures Run(Round4, Regs(0x762008a4, 0x63bd7cab, 0xfdb5db33, 0x9b2d16bf), X, Round4Ops, 8) == Run(Round4, Regs(0x6868ef8b, 0x8c1414cf, 0xc63eb9b5, 0x2eacfe17), X, Round4Ops, 12)
  {
    Round4Line3(0x762008a4, 0x63bd7cab, 0xfdb5db33, 0x9b2d16bf, X, 0x6868ef8b, 0x2eacfe17, 0xc63eb9b5, 0x8c1414cf);
  }

  lemma ZhongR4L4(X: seq<Word>)
    requires |X| == 16
    requires X[2] == 0x00000000 && X[4] == 0x00000000 && X[9] == 0x00000000 && X[11] == 0x00000000
    ensures Run(Round4, Regs(0x6868ef8b, 0x8c1414cf, 0xc63eb9b5, 0x2eacfe17), X, Round4Ops, 12) == Run(Round4, Regs(0x559aaead, 0x656bc4a8, 0x1e4b6be8, 0x35446223), X, Round4Ops, 16)
  {
    Round4Line4(0x6868ef8b, 0x8c1414cf, 0xc63eb9b5, 0x2eacfe17, X, 0x559aaead, 0x35446223, 0x1e4b6be8, 0x656bc4a8);
  }

  lemma ZhongR4(X: seq<Word>)
    requires |X| == 16
    requires X[0] == 0x80adb8e4 && X[1] == 0x00000000 && X[2] == 0x00000000 && X[3] == 0x00000000
    requires X[4] == 0x00000000 && X[5] == 0x00000000 && X[6] == 0x00000000 && X[7] == 0x00000000
    requires X[8] == 0x00000000 && X[9] == 0x00000000 && X[10] == 0x00000000 && X[11] == 0x00000000
    requires X[12] == 0x00000000 && X[13] == 0x00000000 && X[14] == 0x00000018 && X[15] == 0x00000000
    ensures Run(Round4, Regs(0xd947fd24, 0xeea33902, 0x0990f92d, 0x146d383a), X, Round4Ops, 0) == Regs(0x559aaead, 0x656bc4a8, 0x1e4b6be8, 0x35446223)
  {
    ZhongR4L1(X);
    ZhongR4L2(X);
    ZhongR4L3(X);
    ZhongR4L4(X);
  }

  lemma ZhongCompress(X: seq<Word>)
    requires |X| == 16
    requires X[0] == 0x80adb8e4 && X[1] == 0x00000000 && X[2] == 0x00000000 && X[3] == 0x00000000
    requires X[4] == 0x00000000 && X[5] == 0x00000000 && X[6] == 0x00000000 && X[7] == 0x00000000
    requires X[8] == 0x00000000 && X[9] == 0x00000000 && X[10] == 0x00000000 && X[11] == 0x00000000
    requires X[12] == 0x00000000 && X[13] == 0x00000000 && X[14] == 0x00000018 && X[15] == 0x00000000
    ensures Compress(Regs(0x67452301, 0xefcdab89, 0x98badcfe, 0x10325476), X) == Regs(0xbcdfd1ae, 0x55397031, 0xb70648e6, 0x4576b699)
  {
    ZhongR1(X);
    ZhongR2(X);
    ZhongR3(X);
    ZhongR4(X);
  }

  lemma ZhongHash()
    ensures HashBlocks(Init, PaddedWords(ZhongMessage)) == Regs(0xbcdfd1ae, 0x55397031, 0xb70648e6, 0x4576b699)
  {
    ZhongWord0();
    ZhongWord1();
    ZhongWord2();
    ZhongWord3();
    ZhongWord4();
    ZhongWord5();
    ZhongWord6();
    ZhongWord7();
    ZhongWord8();
    ZhongWord9();
    ZhongWord10();
    ZhongWord11();
    ZhongWord12();
    ZhongWord13();
    ZhongWord14();
    ZhongWord15();
    OneBlock(Init, PaddedWords(ZhongMessage));
    ZhongCompress(PaddedWords(ZhongMessage));
  }

  lemma ZhongHex0()
    ensures Hex(WordBytes(0xbcdfd1ae)) == "aed1dfbc"
  {
    HexOfWordBytes(0xbcdfd1ae);
  }

  lemma ZhongHex1()
    ensures Hex(WordBytes(0x55397031)) == "31703955"
  {
    HexOfWordBytes(0x55397031);
  }

  lemma ZhongHex2()
    ensures Hex(WordBytes(0xb70648e6)) == "e64806b7"
  {
    HexOfWordBytes(0xb70648e6);
  }

  lemma ZhongHex3()
    ensures Hex(WordBytes(0x4576b699)) == "99b67645"
  {
    HexOfWordBytes(0x4576b699);
  }

  lemma ZhongText()
    ensures "aed1dfbc" + "31703955" + "e64806b7" + "99b67645" == "aed1dfbc31703955e64806b799b67645"
  {
  }

  lemma ZhongDigest()
    ensures Md5Hex(ZhongMessage) == "aed1dfbc31703955e64806b799b67645"
  {
    ZhongHash();
    ZhongHex0();
    ZhongHex1();
    ZhongHex2();
    ZhongHex3();
    DigestOf(ZhongMessage, Regs(0xbcdfd1ae, 0x55397031, 0xb70648e6, 0x4576b699), "aed1dfbc", "31703955", "e64806b7", "99b67645");
    ZhongText();
  }

  /** A single line feed. */
  const NewlineMessage: seq<Byte> := [0x0a]

  lemma NewlineWord0()
    ensures PaddedWords(NewlineMessage)[0] == 0x0000800a
  {
    PaddedWordAt(NewlineMessage, 0);
  }

  lemma NewlineWord1()
    ensures PaddedWords(NewlineMessage)[1] == 0x00000000
  {
    PaddedWordAt(NewlineMessage, 1);
  }

  lemma NewlineWord2()
    ensures PaddedWords(NewlineMessage)[2] == 0x00000000
  {
    PaddedWordAt(NewlineMessage, 2);
  }

  lemma NewlineWord3()
    ensures PaddedWords(NewlineMessage)[3] == 0x00000000
  {
    PaddedWordAt(NewlineMessage, 3);
  }

  lemma NewlineWord4()
    ensures PaddedWords(NewlineMessage)[4] == 0x00000000
  {
    PaddedWordAt(NewlineMessage, 4);
  }

  lemma NewlineWord5()
    ensures PaddedWords(NewlineMessage)[5] == 0x00000000
  {
    PaddedWordAt(NewlineMessage, 5);
  }

  lemma NewlineWord6()
    ensures PaddedWords(NewlineMessage)[6] == 0x00000000
  {
    PaddedWordAt(NewlineMessage, 6);
  }

  lemma NewlineWord7()
    ensures PaddedWords(NewlineMessage)[7] == 0x00000000
  {
    PaddedWordAt(NewlineMessage, 7);
  }

  lemma NewlineWord8()
    ensures PaddedWords(NewlineMessage)[8] == 0x00000000
  {
    PaddedWordAt(NewlineMessage, 8);
  }

  lemma NewlineWord9()
    ensures PaddedWords(NewlineMessage)[9] == 0x00000000
  {
    PaddedWordAt(NewlineMessage, 9);
  }

  lemma NewlineWord10()
    ensures PaddedWords(NewlineMessage)[10] == 0x00000000
  {
    PaddedWordAt(NewlineMessage, 10);
  }

  lemma NewlineWord11()
    ensures PaddedWords(NewlineMessage)[11] == 0x00000000
  {
    PaddedWordAt(NewlineMessage, 11);
  }

  lemma NewlineWord12()
    ensures PaddedWords(NewlineMessage)[12] == 0x00000000
  {
    PaddedWordAt(NewlineMessage, 12);
  }

  lemma NewlineWord13()
    ensures PaddedWords(NewlineMessage)[13] == 0x00000000
  {
    PaddedWordAt(NewlineMessage, 13);
  }

  lemma NewlineWord14()
    ensures PaddedWords(NewlineMessage)[14] == 0x00000008
  {
    LengthBytesAre(1, 8, 0);
    PaddedWordAt(NewlineMessage, 14);
  }

  lemma NewlineWord15()
    ensures PaddedWords(NewlineMessage)[15] == 0x00000000
  {
    LengthBytesAre(1, 8, 0);
    PaddedWordAt(NewlineMessage, 15);
  }

  lemma NewlineR1L1(X: seq<Word>)
    requires |X| == 16
    requires X[0] == 0x0000800a && X[1] == 0x00000000 && X[2] == 0x00000000 && X[3] == 0x00000000
    ensures Run(Round1, Regs(0x67452301, 0xefcdab89, 0x98badcfe, 0x10325476), X, Round1Ops, 0) == Run(Round1, Regs(0xa55fec74, 0x4c1f7069, 0x962ab034, 0x21a557e2), X, Round1Ops, 4)
  {
    Round1Line1(0x67452301, 0xefcdab89, 0x98badcfe, 0x10325476, X, 0xa55fec74, 0x21a557e2, 0x962ab034, 0x4c1f7069);
  }

  lemma NewlineR1L2(X: seq<Word>)
    requires |X| == 16
    requires X[4] == 0x00000000 && X[5] == 0x00000000 && X[6] == 0x00000000 && X[7] == 0x00000000
    ensures Run(Round1, Regs(0xa55fec74, 0x4c1f7069, 0x962ab034, 0x21a557e2), X, Round1Ops, 4) == Run(Round1, Regs(0x8f395349, 0xf46068a7, 0xb38300d1, 0x2021eb9d), X, Round1Ops, 8)
  {
    Round1Line2(0xa55fec74, 0x4c1f7069, 0x962ab034, 0x21a557e2, X, 0x8f395349, 0x2021eb9d, 0xb38300d1, 0xf46068a7);
  }

  lemma NewlineR1L3(X: seq<Word>)
    requires |X| == 16
    requires X[8] == 0x00000000 && X[9] == 0x00000000 && X[10] == 0x00000000 && X[11] == 0x00000000
    ensures Run(Round1, Regs(0x8f395349, 0xf46068a7, 0xb38300d1, 0x2021eb9d), X, Round1Ops, 8) == Run(Round1, Regs(0x521845fb, 0x48f53ac0, 0x3939472e, 0xf4573fc9), X, Round1Ops, 12)
  {
    Round1Line3(0x8f395349, 0xf46068a7, 0xb38300d1, 0x2021eb9d, X, 0x521845fb, 0xf4573fc9, 0x3939472e, 0x48f53ac0);
  }

  lemma NewlineR1L4(X: seq<Word>)
    requires |X| == 16
    requires X[12] == 0x00000000 && X[13] == 0x00000000 && X[14] == 0x00000008 && X[15] == 0x00000000
    ensures Run(Round1, Regs(0x521845fb, 0x48f53ac0, 0x3939472e, 0xf4573fc9), X, Round1Ops, 12) == Run(Round1, Regs(0x36a44dfc, 0x6f3bd66d, 0x37d69285, 0x02663db6), X, Round1Ops, 16)
  {
    Round1Line4(0x521845fb, 0x48f53ac0, 0x3939472e, 0xf4573fc9, X, 0x36a44dfc, 0x02663db6, 0x37d69285, 0x6f3bd66d);
  }

  lemma NewlineR1(X: seq<Word>)
    requires |X| == 16
    requires X[0] == 0x0000800a && X[1] == 0x00000000 && X[2] == 0x00000000 && X[3] == 0x00000000
    requires X[4] == 0x00000000 && X[5] == 0x00000000 && X[6] == 0x00000000 && X[7] == 0x00000000
    requires X[8] == 0x00000000 && X[9] == 0x00000000 && X[10] == 0x00000000 && X[11] == 0x00000000
    requires X[12] == 0x00000000 && X[13] == 0x00000000 && X[14] == 0x00000008 && X[15] == 0x00000000
    ensures Run(Round1, Regs(0x67452301, 0xefcdab89, 0x98badcfe, 0x10325476), X, Round1Ops, 0) == Regs(0x36a44dfc, 0x6f3bd66d, 0x37d69285, 0x02663db6)
  {
    NewlineR1L1(X);
    NewlineR1L2(X);
    NewlineR1L3(X);
    NewlineR1L4(X);
  }

  lemma NewlineR2L1(X: seq<Word>)
    requires |X| == 16
    requires X[0] == 0x0000800a && X[1] == 0x00000000 && X[6] == 0x00000000 && X[11] == 0x00000000
    ensures Run(Round2, Regs(0x36a44dfc, 0x6f3bd66d, 0x37d69285, 0x02663db6), X, Round2Ops, 0) == Run(Round2, Regs(0xfddd06d9, 0xce690b58, 0xb2b8529a, 0x464cc55a), X, Round2Ops, 4)
  {
    Round2Line1(0x36a44dfc, 0x6f3bd66d, 0x37d69285, 0x02663db6, X, 0xfddd06d9, 0x464cc55a, 0xb2b8529a, 0xce690b58);
  }

  lemma NewlineR2L2(X: seq<Word>)
    requires |X| == 16
    requires X[4] == 0x00000000 && X[5] == 0x00000000 && X[10] == 0x00000000 && X[15] == 0x00000000
    ensures Run(Round2, Regs(0xfddd06d9, 0xce690b58, 0xb2b8529a, 0x464cc55a), X, Round2Ops, 4) == Run(Round2, Regs(0x2eee6d31, 0x0885d16f, 0x4c89941f, 0x2334689f), X, Round2Ops, 8)
  {
    Round2Line2(0xfddd06d9, 0xce690b58, 0xb2b8529a, 0x464cc55a, X, 0x2eee6d31, 0x2334689f, 0x4c89941f, 0x0885d16f);
  }

  lemma NewlineR2L3(X: seq<Word>)
    requires |X| == 16
    requires X[3] == 0x00000000 && X[8] == 0x00000000 && X[9] == 0x00000000 && X[14] == 0x00000008
    ensures Run(Round2, Regs(0x2eee6d31, 0x0885d16f, 0x4c89941f, 0x2334689f), X, Round2Ops, 8) == Run(Round2, Regs(0xb447b642, 0xa3e4fb0b, 0x1cbeb39e, 0x96d37616), X, Round2Ops, 12)
  {
    Round2Line3(0x2eee6d31, 0x0885d16f, 0x4c89941f, 0x2334689f, X, 0xb447b642, 0x96d37616, 0x1cbeb39e, 0xa3e4fb0b);
  }

  lemma NewlineR2L4(X: seq<Word>)
    requires |X| == 16
    requires X[2] == 0x00000000 && X[7] == 0x00000000 && X[12] == 0x00000000 && X[13] == 0x00000000
    ensures Run(Round2, Regs(0xb447b642, 0xa3e4fb0b, 0x1cbeb39e, 0x96d37616), X, Round2Ops, 12) == Run(Round2, Regs(0xc6f75548, 0x721ce41d, 0x894e3e40, 0x39dd83bf), X, Round2Ops, 16)
  {
    Round2Line4(0xb447b642, 0xa3e4fb0b, 0x1cbeb39e, 0x96d37616, X, 0xc6f75548, 0x39dd83bf, 0x894e3e40, 0x721ce41d);
  }

  lemma NewlineR2(X: seq<Word>)
    requires |X| == 16
    requires X[0] == 0x0000800a && X[1] == 0x00000000 && X[2] == 0x00000000 && X[3] == 0x00000000
    requires X[4] == 0x00000000 && X[5] == 0x00000000 && X[6] == 0x00000000 && X[7] == 0x00000000
    requires X[8] == 0x00000000 && X[9] == 0x00000000 && X[10] == 0x00000000 && X[11] == 0x00000000
    requires X[12] == 0x00000000 && X[13] == 0x00000000 && X[14] == 0x00000008 && X[15] == 0x00000000
    ensures Run(Round2, Regs(0x36a44dfc, 0x6f3bd66d, 0x37d69285, 0x02663db6), X, Round2Ops, 0) == Regs(0xc6f75548, 0x721ce41d, 0x894e3e40, 0x39dd83bf)
  {
    NewlineR2L1(X);
    NewlineR2L2(X);
    NewlineR2L3(X);
    NewlineR2L4(X);
  }

  lemma NewlineR3L1(X: seq<Word>)
    requires |X| == 16
    requires X[5] == 0x00000000 && X[8] == 0x00000000 && X[11] == 0x00000000 && X[14] == 0x00000008
    ensures Run(Round3, Regs(0xc6f75548, 0x721ce41d, 0x894e3e40, 0x39dd83bf), X, Round3Ops, 0) == Run(Round3, Regs(0x0a2b6ae5, 0x8c94b42d, 0xb168531b, 0x5383307b), X, Round3Ops, 4)
  {
    Round3Line1(0xc6f75548, 0x721ce41d, 0x894e3e40, 0x39dd83bf, X, 0x0a2b6ae5, 0x5383307b, 0xb168531b, 0x8c94b42d);
  }

  lemma NewlineR3L2(X: seq<Word>)
    requires |X| == 16
    requires X[1] == 0x00000000 && X[4] == 0x00000000 && X[7] == 0x00000000 && X[10] == 0x00000000
    ensures Run(Round3, Regs(0x0a2b6ae5, 0x8c94b42d, 0xb168531b, 0x5383307b), X, Round3Ops, 4) == Run(Round3, Regs(0x63377b8e, 0x32f02542, 0x1b764b60, 0xd01e637f), X, Round3Ops, 8)
  {
    Round3Line2(0x0a2b6ae5, 0x8c94b42d, 0xb168531b, 0x5383307b, X, 0x63377b8e, 0xd01e637f, 0x1b764b60, 0x32f02542);
  }

  lemma NewlineR3L3(X: seq<Word>)
    requires |X| == 16
    requires X[0] == 0x0000800a && X[3] == 0x00000000 && X[6] == 0x00000000 && X[13] == 0x00000000
    ensures Run(Round3, Regs(0x63377b8e, 0x32f02542, 0x1b764b60, 0xd01e637f), X, Round3Ops, 8) == Run(Round3, Regs(0x89a0a05a, 0x4c5479f7, 0x3a7ee6b7, 0xc0707b31), X, Round3Ops, 12)
  {
    Round3Line3(0x63377b8e, 0x32f02542, 0x1b764b60, 0xd01e637f, X, 0x89a0a05a, 0xc0707b31, 0x3a7ee6b7, 0x4c5479f7);
  }

  lemma NewlineR3L4(X: seq<Word>)
    requires |X| == 16
    requires X[2] == 0x00000000 && X[9] == 0x00000000 && X[12] == 0x00000000 && X[15] == 0x00000000
    ensures Run(Round3, Regs(0x89a0a05a, 0x4c5479f7, 0x3a7ee6b7, 0xc0707b31), X, Round3Ops, 12) == Run(Round3, Regs(0xe959ca38, 0x38755cb0, 0xd7ffd831, 0xe4ae3c6d), X, Round3Ops, 16)
  {
    Round3Line4(0x89a0a05a, 0x4c5479f7, 0x3a7ee6b7, 0xc0707b31, X, 0xe959ca38, 0xe4ae3c6d, 0xd7ffd831, 0x38755cb0);
  }

  lemma NewlineR3(X: seq<Word>)
    requires |X| == 16
    requires X[0] == 0x0000800a && X[1] == 0x00000000 && X[2] == 0x00000000 && X[3] == 0x00000000
    requires X[4] == 0x00000000 && X[5] == 0x00000000 && X[6] == 0x00000000 && X[7] == 0x00000000
    requires X[8] == 0x00000000 && X[9] == 0x00000000 && X[10] == 0x00000000 && X[11] == 0x00000000
    requires X[12] == 0x00000000 && X[13] == 0x00000000 && X[14] == 0x00000008 && X[15] == 0x00000000
    ensures Run(Round3, Regs(0xc6f75548, 0x721ce41d, 0x894e3e40, 0x39dd83bf), X, Round3Ops, 0) == Regs(0xe959ca38, 0x38755cb0, 0xd7ffd831, 0xe4ae3c6d)
  {
    NewlineR3L1(X);
    NewlineR3L2(X);
    NewlineR3L3(X);
    NewlineR3L4(X);
  }

  lemma NewlineR4L1(X: seq<Word>)
    requires |X| == 16
    requires X[0] == 0x0000800a && X[5] == 0x00000000 && X[7] == 0x00000000 && X[14] == 0x00000008
    ensures Run(Round4, Regs(0xe959ca38, 0x38755cb0, 0xd7ffd831, 0xe4ae3c6d), X, Round4Ops, 0) == Run(Round4, Regs(0xbbd25f22, 0xb8928cc8, 0x95becda8, 0xbd4fe9d0), X, Round4Ops, 4)
  {
    Round4Line1(0xe959ca38, 0x38755cb0, 0xd7ffd831, 0xe4ae3c6d, X, 0xbbd25f22, 0xbd4fe9d0, 0x95becda8, 0xb8928cc8);
  }

  lemma NewlineR4L2(X: seq<Word>)
    requires |X| == 16
    requires X[1] == 0x00000000 && X[3] == 0x00000000 && X[10] == 0x00000000 && X[12] == 0x00000000
    ensures Run(Round4, Regs(0xbbd25f22, 0xb8928cc8, 0x95becda8, 0xbd4fe9d0), X, Round4Ops, 4) == Run(Round4, Regs(0xc71597ec, 0x345518d6, 0xec3811c8, 0x56dbfe7c), X, Round4Ops, 8)
  {
    Round4Line2(0xbbd25f22, 0xb8928cc8, 0x95becda8, 0xbd4fe9d0, X, 0xc71597ec, 0x56dbfe7c, 0xec3811c8, 0x345518d6);
  }

  lemma NewlineR4L3(X: seq<Word>)
    requires |X| == 16
    requires X[6] == 0x00000000 && X[8] == 0x00000000 && X[13] == 0x00000000 && X[15] == 0x00000000
    ensures Run(Round4, Regs(0xc71597ec, 0x345518d6, 0xec3811c8, 0x56dbfe7c), X, Round4Ops, 8) == Run(Round4, Regs(0x371caf78, 0x26dc42d1, 0x554088c9, 0x8690c4da), X, Round4Ops, 12)
  {
    Round4Line3(0xc71597ec, 0x345518d6, 0xec3811c8, 0x56dbfe7c, X, 0x371caf78, 0x8690c4da, 0x554088c9, 0x26dc42d1);
  }

  lemma NewlineR4L4(X: seq<Word>)
    requires |X| == 16
    requires X[2] == 0x00000000 && X[4] == 0x00000000 && X[9] == 0x00000000 && X[11] == 0x00000000
    ensures Run(Round4, Regs(0x371caf78, 0x26dc42d1, 0x554088c9, 0x8690c4da), X, Round4Ops, 12) == Run(Round4, Regs(0x72e49067, 0x5115e80f, 0x151dea9b, 0x309764e6), X, Round4Ops, 16)
  {
    Round4Line4(0x371caf78, 0x26dc42d1, 0x554088c9, 0x8690c4da, X, 0x72e49067, 0x309764e6, 0x151dea9b, 0x5115e80f);
  }

  lemma NewlineR4(X: seq<Word>)
    requires |X| == 16
    requires X[0] == 0x0000800a && X[1] == 0x00000000 && X[2] == 0x00000000 && X[3] == 0x00000000
    requires X[4] == 0x00000000 && X[5] == 0x00000000 && X[6] == 0x00000000 && X[7] == 0x00000000
    requires X[8] == 0x00000000 && X[9] == 0x00000000 && X[10] == 0x00000000 && X[11] == 0x00000000
    requires X[12] == 0x00000000 && X[13] == 0x00000000 && X[14] == 0x00000008 && X[15] == 0x00000000
    ensures Run(Round4, Regs(0xe959ca38, 0x38755cb0, 0xd7ffd831, 0xe4ae3c6d), X, Round4Ops, 0) == Regs(0x72e49067, 0x5115e80f, 0x151dea9b, 0x309764e6)
  {
    NewlineR4L1(X);
    NewlineR4L2(X);
    NewlineR4L3(X);
    NewlineR4L4(X);
  }

  lemma NewlineCompress(X: seq<Word>)
    requires |X| == 16
    requires X[0] == 0x0000800a && X[1] == 0x00000000 && X[2] == 0x00000000 && X[3] == 0x00000000
    requires X[4] == 0x00000000 && X[5] == 0x00000000 && X[6] == 0x00000000 && X[7] == 0x00000000
    requires X[8] == 0x00000000 && X[9] == 0x00000000 && X[10] == 0x00000000 && X[11] == 0x00000000
    requires X[12] == 0x00000000 && X[13] == 0x00000000 && X[14] == 0x00000008 && X[15] == 0x00000000
    ensures Compress(Regs(0x67452301, 0xefcdab89, 0x98badcfe, 0x10325476), X) == Regs(0xda29b368, 0x40e39398, 0xadd8c799, 0x40c9b95c)
  {
    NewlineR1(X);
    NewlineR2(X);
    NewlineR3(X);
    NewlineR4(X);
  }

  lemma NewlineHash()
    ensures HashBlocks(Init, PaddedWords(NewlineMessage)) == Regs(0xda29b368, 0x40e39398, 0xadd8c799, 0x40c9b95c)
  {
    NewlineWord0();
    NewlineWord1();
    NewlineWord2();
    NewlineWord3();
    NewlineWord4();
    NewlineWord5();
    NewlineWord6();
    NewlineWord7();
    NewlineWord8();
    NewlineWord9();
    NewlineWord10();
    NewlineWord11();
    NewlineWord12();
    NewlineWord13();
    NewlineWord14();
    NewlineWord15();
    OneBlock(Init, PaddedWords(NewlineMessage));
    NewlineCompress(PaddedWords(NewlineMessage));
  }

  lemma NewlineHex0()
    ensures Hex(WordBytes(0xda29b368)) == "68b329da"
  {
    HexOfWordBytes(0xda29b368);
  }

  lemma NewlineHex1()
    ensures Hex(WordBytes(0x40e39398)) == "9893e340"
  {
    HexOfWordBytes(0x40e39398);
  }

  lemma NewlineHex2()
    ensures Hex(WordBytes(0xadd8c799)) == "99c7d8ad"
  {
    HexOfWordBytes(0xadd8c799);
  }

  lemma NewlineHex3()
    ensures Hex(WordBytes(0x40c9b95c)) == "5cb9c940"
  {
    HexOfWordBytes(0x40c9b95c);
  }

  lemma NewlineText()
    ensures "68b329da" + "9893e340" + "99c7d8ad" + "5cb9c940" == "68b329da9893e34099c7d8ad5cb9c940"
  {
  }

  lemma NewlineDigest()
    ensures Md5Hex(NewlineMessage) == "68b329da9893e34099c7d8ad5cb9c940"
  {
    NewlineHash();
    NewlineHex0();
    NewlineHex1();
    NewlineHex2();
    NewlineHex3();
    DigestOf(NewlineMessage, Regs(0xda29b368, 0x40e39398, 0xadd8c799, 0x40c9b95c), "68b329da", "9893e340", "99c7d8ad", "5cb9c940");
    NewlineText();
  }
}
