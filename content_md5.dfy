/**
 * The MD5 digest that the content script uses to sign translation requests
 * (VoiceTranslator.md5 in src/content.js), modelled as it is written: the
 * 32-bit helpers, coreMD5 with its two writes into the word array and its
 * block loop, utf8Encode, convertToWordArray and wordToHex.
 *
 * JavaScript numbers that pass through the bitwise operators are 32-bit
 * two's-complement words, so they are modelled as bv32; a string is a
 * sequence of UTF-16 code units. An array element that was never written
 * (a hole, or an index past the end) reads as undefined, and every operator
 * applied to it here treats it as 0: `At` models that read.
 */
module ContentMd5 {
  import Rfc = Rfc1321
  import JsValue

  type Word = bv32

  /** A UTF-16 code unit, what String.prototype.charCodeAt returns. */
  type Unit = bv16

  // ---------------------------------------------------------------------
  // The 32-bit helpers (src/content.js:204-232).
  // ---------------------------------------------------------------------

  /** `(value << amount) | (value >>> (32 - amount))`; JavaScript takes
      shift counts modulo 32. */
  function RotateLeft(value: Word, amount: Word): (r: Word)
    ensures 0 < amount < 32 ==> r == Rfc.Rotl(value, amount)
  {
    ShiftCountsMasked(value, amount);
    (value << (amount & 31)) | (value >> ((32 - amount) & 31))
  }

  lemma ShiftCountsMasked(v: Word, s: Word)
    ensures 0 < s < 32 ==> (v << (s & 31)) | (v >> ((32 - s) & 31)) == (v << s) | (v >> (32 - s))
  {
  }

  /** `x >> 16`: the arithmetic shift, which copies the sign bit. */
  function ShiftRight16(x: Word): Word
  {
    (x >> 16) | ((0 - (x >> 31)) << 16)
  }

  /** Adds the low halves, then the (sign-extended) high halves with the
      carry. The result is the sum modulo 2^32. */
  function AddUnsigned(x: Word, y: Word): (r: Word)
    ensures r == Rfc.Add(x, y)
  {
    var lsw := (x & 0xFFFF) + (y & 0xFFFF);
    var msw := ShiftRight16(x) + ShiftRight16(y) + (lsw >> 16);
    (msw << 16) | (lsw & 0xFFFF)
  }

  /** One step: b + ((a + q + x + t) <<< s), as the RFC 1321 operation. */
  function Md5cmn(q: Word, a: Word, b: Word, x: Word, s: Word, t: Word): (r: Word)
    ensures 0 < s < 32 ==> r == Rfc.Op(q, a, b, x, s, t)
  {
    Rfc.AddCommutative(RotateLeft(AddUnsigned(AddUnsigned(a, q), AddUnsigned(x, t)), s), b);
    AddUnsigned(RotateLeft(AddUnsigned(AddUnsigned(a, q), AddUnsigned(x, t)), s), b)
  }

  function Md5ff(a: Word, b: Word, c: Word, d: Word, x: Word, s: Word, t: Word): (r: Word)
    ensures 0 < s < 32 ==> r == Rfc.Op(Rfc.F(b, c, d), a, b, x, s, t)
  {
    Md5cmn((b & c) | ((!b) & d), a, b, x, s, t)
  }

  function Md5gg(a: Word, b: Word, c: Word, d: Word, x: Word, s: Word, t: Word): (r: Word)
    ensures 0 < s < 32 ==> r == Rfc.Op(Rfc.G(b, c, d), a, b, x, s, t)
  {
    Md5cmn((b & d) | (c & (!d)), a, b, x, s, t)
  }

  function Md5hh(a: Word, b: Word, c: Word, d: Word, x: Word, s: Word, t: Word): (r: Word)
    ensures 0 < s < 32 ==> r == Rfc.Op(Rfc.H(b, c, d), a, b, x, s, t)
  {
    Md5cmn(b ^ c ^ d, a, b, x, s, t)
  }

  function Md5ii(a: Word, b: Word, c: Word, d: Word, x: Word, s: Word, t: Word): (r: Word)
    ensures 0 < s < 32 ==> r == Rfc.Op(Rfc.I(b, c, d), a, b, x, s, t)
  {
    Md5cmn(c ^ (b | (!d)), a, b, x, s, t)
  }

  // ---------------------------------------------------------------------
  // Word arrays.
  // ---------------------------------------------------------------------

  /** Reading x[i]: an element that was never written counts as 0. */
  function At(x: seq<Word>, i: nat): Word
  {
    if i < |x| then x[i] else 0
  }

  /** Writing x[i] = v; a write past the end lengthens the array and leaves
      holes, which read as 0. */
  function Store(x: seq<Word>, i: nat, v: Word): (r: seq<Word>)
    ensures |r| == if i < |x| then |x| else i + 1
    ensures At(r, i) == v
    ensures forall j: nat :: j != i ==> At(r, j) == At(x, j)
  {
    if i < |x| then x[i := v] else x + seq(i - |x|, _ => 0) + [v]
  }

  /** The sixteen words the loop body reads at block offset i. */
  function Block(x: seq<Word>, i: nat): (X: seq<Word>)
    ensures |X| == 16 && forall k :: 0 <= k < 16 ==> X[k] == At(x, i + k)
  {
    seq(16, k requires 0 <= k < 16 => At(x, i + k))
  }

  // ---------------------------------------------------------------------
  // coreMD5 (src/content.js:234-322).
  // ---------------------------------------------------------------------

  /** ToInt32: a number read as a signed 32-bit integer. */
  function Int32(n: nat): int
  {
    var u := n % 0x1_0000_0000;
    if u < 0x8000_0000 then u else u - 0x1_0000_0000
  }

  /** `len >> 5`, the index of the word that receives the 0x80 marker. A
      negative index names a property, not an element, and the write to it
      changes no element of the array. */
  function MarkerIndex(len: nat): int
  {
    Int32(len) / 32
  }

  /** `0x80 << (len % 32)`. */
  function Marker(len: nat): Word
  {
    (0x80 as Word) << (len % 32)
  }

  /** `(((len + 64) >>> 9) << 4) + 14`, the index of the word that receives
      the bit length. */
  function LengthIndex(len: nat): nat
  {
    (len + 64) % 0x1_0000_0000 / 512 * 16 + 14
  }

  /** The word array after the two writes of lines 235-236. The length is
      stored as a number and every later read takes it modulo 2^32. */
  function Marked(x: seq<Word>, len: nat): seq<Word>
  {
    var i := MarkerIndex(len);
    var x1 := if i >= 0 then Store(x, i, At(x, i) | Marker(len)) else x;
    Store(x1, LengthIndex(len), (len % 0x1_0000_0000) as Word)
  }

  /** The words the block loop reads: `x.length` rounded up to whole blocks. */
  function Blocks(w: seq<Word>): (B: seq<Word>)
    ensures |B| % 16 == 0 && |w| <= |B| < |w| + 16
    ensures forall k :: 0 <= k < |B| ==> B[k] == At(w, k)
  {
    var n := (|w| + 15) / 16;
    assert |w| <= 16 * n < |w| + 16;
    assert (16 * n) % 16 == 0;
    seq(16 * n, k requires 0 <= k < 16 * n => At(w, k))
  }

  /** The block loop from offset i on: one compression per 16 words while
      i < x.length. */
  function HashFrom(st: Rfc.Regs, w: seq<Word>, i: nat): Rfc.Regs
    decreases |w| - i
  {
    if i < |w| then HashFrom(Rfc.Compress(st, Block(w, i)), w, i + 16) else st
  }

  /** Whole blocks less whole blocks leave whole blocks. */
  lemma WholeBlocksLeft(n: nat, i: nat)
    requires n % 16 == 0 && i % 16 == 0 && i <= n
    ensures (n - i) % 16 == 0
  {
    assert n - i == 16 * (n / 16 - i / 16);
  }

  /** The block loop hashes exactly the blocks of `Blocks(w)`, in order. */
  lemma {:induction false} HashFromBlocks(st: Rfc.Regs, w: seq<Word>, i: nat)
    requires i % 16 == 0 && i <= |Blocks(w)|
    ensures (WholeBlocksLeft(|Blocks(w)|, i); HashFrom(st, w, i) == Rfc.HashBlocks(st, Blocks(w)[i..]))
    decreases |w| - i
  {
    var B := Blocks(w);
    WholeBlocksLeft(|B|, i);
    if i < |w| {
      assert (i + 16) % 16 == 0 && i + 16 <= |B|;
      assert B[i..][..16] == Block(w, i);
      assert B[i..][16..] == B[i + 16..];
      HashFromBlocks(Rfc.Compress(st, Block(w, i)), w, i + 16);
    } else {
      assert B[i..] == [];
    }
  }

  /** What coreMD5 computes: the block loop over the marked array, starting
      from the registers of RFC 1321 section 3.3. */
  function Core(x: seq<Word>, len: nat): Rfc.Regs
  {
    HashFrom(Rfc.Init, Marked(x, len), 0)
  }

  function RegsWords(r: Rfc.Regs): seq<Word>
  {
    [r.a, r.b, r.c, r.d]
  }

  /** The decimal initial values of lines 238-241 are the registers of
      RFC 1321 section 3.3. */
  lemma InitialRegisters()
    ensures Rfc.Regs(1732584193, -271733879, -1732584194, 271733878) == Rfc.Init
  {
  }

  /** The body of the block loop (lines 244-320): the four rounds, then each
      register incremented by its value before the block. */
  method CompressBlock(a0: Word, b0: Word, c0: Word, d0: Word, x: seq<Word>, i: nat) returns (a: Word, b: Word, c: Word, d: Word)
    ensures Rfc.Regs(a, b, c, d) == Rfc.Compress(Rfc.Regs(a0, b0, c0, d0), Block(x, i))
  {
    var olda, oldb, oldc, oldd := a0, b0, c0, d0;
    a, b, c, d := Round1(a0, b0, c0, d0, x, i);
    a, b, c, d := Round2(a, b, c, d, x, i);
    a, b, c, d := Round3(a, b, c, d, x, i);
    a, b, c, d := Round4(a, b, c, d, x, i);
    a := AddUnsigned(a, olda);
    b := AddUnsigned(b, oldb);
    c := AddUnsigned(c, oldc);
    d := AddUnsigned(d, oldd);
  }

  method CoreMd5(x: seq<Word>, len: nat) returns (r: seq<Word>)
    ensures r == RegsWords(Core(x, len))
  {
    var w := x;
    var mi := MarkerIndex(len);
    if mi >= 0 {
      w := Store(w, mi, At(w, mi) | Marker(len));
    }
    w := Store(w, LengthIndex(len), (len % 0x1_0000_0000) as Word);
    assert w == Marked(x, len);

    var a: Word := 1732584193;
    var b: Word := -271733879;
    var c: Word := -1732584194;
    var d: Word := 271733878;
    InitialRegisters();
    var i := 0;
    while i < |w|
      invariant HashFrom(Rfc.Regs(a, b, c, d), w, i) == HashFrom(Rfc.Init, w, 0)
    {
      a, b, c, d := CompressBlock(a, b, c, d, w, i);
      i := i + 16;
    }
    r := [a, b, c, d];
  }

  // ---------------------------------------------------------------------
  // utf8Encode (src/content.js:325-342).
  // ---------------------------------------------------------------------

  const CR: Unit := 13
  const LF: Unit := 10

  /** `string.replace(/\r\n/g, '\n')`: scanning left to right, each CR LF
      pair becomes a single LF. */
  function ReplaceCrlf(s: seq<Unit>): (r: seq<Unit>)
    ensures |r| <= |s|
  {
    if |s| < 2 then s
    else if s[0] == CR && s[1] == LF then [LF] + ReplaceCrlf(s[2..])
    else [s[0]] + ReplaceCrlf(s[1..])
  }

  predicate HasCrlf(s: seq<Unit>)
  {
    exists i :: 0 <= i < |s| - 1 && s[i] == CR && s[i + 1] == LF
  }

  /** The replacement changes the string exactly when it holds a CR LF pair. */
  lemma {:induction false} ReplaceCrlfUnchanged(s: seq<Unit>)
    ensures ReplaceCrlf(s) == s <==> !HasCrlf(s)
    ensures HasCrlf(s) ==> |ReplaceCrlf(s)| < |s|
    decreases |s|
  {
    if |s| >= 2 {
      if s[0] == CR && s[1] == LF {
        assert HasCrlf(s) by {
          assert s[0] == CR && s[0 + 1] == LF;
        }
      } else {
        var t := s[1..];
        ReplaceCrlfUnchanged(t);
        assert HasCrlf(s) <==> HasCrlf(t) by {
          if HasCrlf(s) {
            var i :| 0 <= i < |s| - 1 && s[i] == CR && s[i + 1] == LF;
            assert i >= 1;
            assert t[i - 1] == CR && t[i - 1 + 1] == LF;
          }
          if HasCrlf(t) {
            var i :| 0 <= i < |t| - 1 && t[i] == CR && t[i + 1] == LF;
            assert s[i + 1] == CR && s[i + 1 + 1] == LF;
          }
        }
        assert s == [s[0]] + t;
      }
    } else {
      assert !HasCrlf(s);
    }
  }

  /** The bytes a code unit is written as: one below 0x80, two below 0x800,
      three otherwise (each half of a surrogate pair on its own). */
  function EncodeUnit(c: Unit): seq<Unit>
  {
    if c < 128 then [c]
    else if c > 127 && c < 2048 then [(c >> 6) | 192, (c & 63) | 128]
    else [(c >> 12) | 224, ((c >> 6) & 63) | 128, (c & 63) | 128]
  }

  lemma EncodeUnitCases(c: Unit)
    ensures c < 128 ==> EncodeUnit(c) == [c]
    ensures c > 127 && c < 2048 ==> EncodeUnit(c) == [(c >> 6) | 192, (c & 63) | 128]
    ensures !(c < 128) && !(c > 127 && c < 2048) ==>
      EncodeUnit(c) == [(c >> 12) | 224, ((c >> 6) & 63) | 128, (c & 63) | 128]
  {
  }

  /** The forms of RFC 3629 section 3: the length follows the value, the
      first byte carries the length prefix and each later byte the 10
      continuation prefix, and every unit is a byte. */
  lemma EncodeUnitForm(c: Unit)
    ensures var r := EncodeUnit(c);
      && |r| == (if c < 0x80 then 1 else if c < 0x800 then 2 else 3)
      && (forall i :: 0 <= i < |r| ==> r[i] <= 0xFF)
      && (c < 0x80 ==> r[0] == c)
      && (0x80 <= c < 0x800 ==> r[0] & 0xE0 == 0xC0 && r[1] & 0xC0 == 0x80)
      && (0x800 <= c ==> r[0] & 0xF0 == 0xE0 && r[1] & 0xC0 == 0x80 && r[2] & 0xC0 == 0x80)
  {
    if 0x80 <= c < 0x800 {
      TwoBytes(c);
    } else if 0x800 <= c {
      ThreeBytes(c);
    }
  }

  /** Each code unit is encoded on its own, so a character beyond U+FFFF
      (here U+1F600, the surrogate pair D83D DE00) becomes two three-byte
      forms of its surrogates, not the four-byte form RFC 3629 gives it. */
  lemma SurrogatePair()
    ensures Utf8([0xD83D, 0xDE00]) == [0xED, 0xA0, 0xBD, 0xED, 0xB8, 0x80]
  {
    HighSurrogate();
    LowSurrogate();
    var s: seq<Unit> := [0xD83D, 0xDE00];
    assert s[..1][..0] == [] && s[..1] == [0xD83D];
    assert Utf8(s) == Utf8(s[..1]) + EncodeUnit(0xDE00);
    assert Utf8(s[..1]) == EncodeUnit(0xD83D);
  }

  lemma HighSurrogate()
    ensures EncodeUnit(0xD83D) == [0xED, 0xA0, 0xBD]
  {
    EncodeUnitCases(0xD83D);
  }

  lemma LowSurrogate()
    ensures EncodeUnit(0xDE00) == [0xED, 0xB8, 0x80]
  {
    EncodeUnitCases(0xDE00);
  }

  /** The code units of s, each encoded in turn. */
  function Utf8(s: seq<Unit>): seq<Unit>
  {
    if s == [] then [] else Utf8(s[..|s| - 1]) + EncodeUnit(s[|s| - 1])
  }

  /** Every unit of the encoding is a byte, so String.fromCharCode keeps
      each of them whole. */
  lemma {:induction false} Utf8Bytes(s: seq<Unit>)
    ensures forall i :: 0 <= i < |Utf8(s)| ==> Utf8(s)[i] <= 0xFF
    decreases |s|
  {
    if s != [] {
      Utf8Bytes(s[..|s| - 1]);
      EncodeUnitForm(s[|s| - 1]);
    }
  }

  /** What utf8Encode returns. */
  function Encoded(s: seq<Unit>): seq<Unit>
  {
    Utf8(ReplaceCrlf(s))
  }

  method Utf8Encode(text: seq<Unit>) returns (utftext: seq<Unit>)
    ensures utftext == Encoded(text)
  {
    var s := ReplaceCrlf(text);
    utftext := [];
    var n := 0;
    while n < |s|
      invariant n <= |s| && utftext == Utf8(s[..n])
    {
      var c := s[n];
      EncodeUnitCases(c);
      ghost var before := utftext;
      if c < 128 {
        utftext := utftext + [c];
      } else if c > 127 && c < 2048 {
        utftext := utftext + [(c >> 6) | 192];
        utftext := utftext + [(c & 63) | 128];
        AppendTwo(before, (c >> 6) | 192, (c & 63) | 128);
      } else {
        utftext := utftext + [(c >> 12) | 224];
        utftext := utftext + [((c >> 6) & 63) | 128];
        utftext := utftext + [(c & 63) | 128];
        AppendThree(before, (c >> 12) | 224, ((c >> 6) & 63) | 128, (c & 63) | 128);
      }
      assert utftext == before + EncodeUnit(c);
      assert s[..n + 1][..n] == s[..n] && s[..n + 1][n] == c;
      Utf8Snoc(s[..n + 1]);
      n := n + 1;
    }
    assert s[..n] == s;
  }

  lemma AppendTwo(s: seq<Unit>, a: Unit, b: Unit)
    ensures s + [a] + [b] == s + [a, b]
  {
  }

  lemma AppendThree(s: seq<Unit>, a: Unit, b: Unit, c: Unit)
    ensures s + [a] + [b] + [c] == s + [a, b, c]
  {
  }

  lemma Utf8Snoc(s: seq<Unit>)
    requires s != []
    ensures Utf8(s) == Utf8(s[..|s| - 1]) + EncodeUnit(s[|s| - 1])
  {
  }

  lemma {:induction false} Utf8Append(s: seq<Unit>, t: seq<Unit>)
    ensures Utf8(s + t) == Utf8(s) + Utf8(t)
    decreases |t|
  {
    if t == [] {
      assert s + t == s;
    } else {
      var u, c := t[..|t| - 1], t[|t| - 1];
      assert (s + t)[..|s + t| - 1] == s + u;
      assert (s + t)[|s + t| - 1] == c;
      Utf8Append(s, u);
      assert Utf8(s + t) == Utf8(s + u) + EncodeUnit(c);
      assert Utf8(t) == Utf8(u) + EncodeUnit(c);
      assert Utf8(s) + Utf8(u) + EncodeUnit(c) == Utf8(s) + (Utf8(u) + EncodeUnit(c));
    }
  }

  predicate IsAscii(s: seq<Unit>)
  {
    forall i :: 0 <= i < |s| ==> s[i] < 0x80
  }

  /** ASCII text without CR LF is its own encoding. */
  lemma {:induction false} AsciiEncoded(s: seq<Unit>)
    requires IsAscii(s) && !HasCrlf(s)
    ensures Encoded(s) == s
  {
    ReplaceCrlfUnchanged(s);
    AsciiUtf8(s);
  }

  lemma {:induction false} AsciiUtf8(s: seq<Unit>)
    requires IsAscii(s)
    ensures Utf8(s) == s
    decreases |s|
  {
    if s != [] {
      var p, c := s[..|s| - 1], s[|s| - 1];
      assert IsAscii(p) by {
        assert forall i :: 0 <= i < |p| ==> p[i] == s[i];
      }
      AsciiUtf8(p);
      EncodeUnitCases(c);
      assert Utf8(s) == p + [c];
      assert s == p + [c];
    }
  }

  /** Decoding the one-, two- and three-byte forms of RFC 3629 section 3, each
      back to one code unit; None for anything else. */
  function DecodeUtf8(bs: seq<Unit>): JsValue.Option<seq<Unit>>
    decreases |bs|
  {
    if bs == [] then JsValue.Some([])
    else if bs[0] < 0x80 then Prepend(bs[0], DecodeUtf8(bs[1..]))
    else if |bs| >= 2 && bs[0] & 0xE0 == 0xC0 && bs[1] & 0xC0 == 0x80 then
      Prepend(((bs[0] & 0x1F) << 6) | (bs[1] & 0x3F), DecodeUtf8(bs[2..]))
    else if |bs| >= 3 && bs[0] & 0xF0 == 0xE0 && bs[1] & 0xC0 == 0x80 && bs[2] & 0xC0 == 0x80 then
      Prepend(((bs[0] & 0x0F) << 12) | ((bs[1] & 0x3F) << 6) | (bs[2] & 0x3F), DecodeUtf8(bs[3..]))
    else JsValue.None
  }

  function Prepend(c: Unit, r: JsValue.Option<seq<Unit>>): JsValue.Option<seq<Unit>>
  {
    if r.Some? then JsValue.Some([c] + r.value) else JsValue.None
  }

  lemma DecodeUnit(c: Unit, rest: seq<Unit>)
    ensures DecodeUtf8(EncodeUnit(c) + rest) == Prepend(c, DecodeUtf8(rest))
  {
    EncodeUnitCases(c);
    if c < 0x80 {
      assert ([c] + rest)[1..] == rest;
    } else if c < 0x800 {
      TwoBytes(c);
      DecodeTwo((c >> 6) | 192, (c & 63) | 128, rest);
    } else {
      ThreeBytes(c);
      DecodeThree((c >> 12) | 224, ((c >> 6) & 63) | 128, (c & 63) | 128, rest);
    }
  }

  lemma DecodeTwo(b0: Unit, b1: Unit, rest: seq<Unit>)
    requires !(b0 < 0x80) && b0 & 0xE0 == 0xC0 && b1 & 0xC0 == 0x80
    ensures DecodeUtf8([b0, b1] + rest) == Prepend(((b0 & 0x1F) << 6) | (b1 & 0x3F), DecodeUtf8(rest))
  {
    var bs := [b0, b1] + rest;
    assert bs[0] == b0 && bs[1] == b1 && bs[2..] == rest;
  }

  lemma DecodeThree(b0: Unit, b1: Unit, b2: Unit, rest: seq<Unit>)
    requires !(b0 < 0x80) && b0 & 0xE0 != 0xC0 && b0 & 0xF0 == 0xE0 && b1 & 0xC0 == 0x80 && b2 & 0xC0 == 0x80
    ensures DecodeUtf8([b0, b1, b2] + rest) == Prepend(((b0 & 0x0F) << 12) | ((b1 & 0x3F) << 6) | (b2 & 0x3F), DecodeUtf8(rest))
  {
    var bs := [b0, b1, b2] + rest;
    assert bs[0] == b0 && bs[1] == b1 && bs[2] == b2 && bs[3..] == rest;
  }

  lemma TwoBytes(c: Unit)
    requires 0x80 <= c < 0x800
    ensures var b0, b1 := (c >> 6) | 192, (c & 63) | 128;
      !(b0 < 0x80) && b0 & 0xE0 == 0xC0 && b1 & 0xC0 == 0x80 && ((b0 & 0x1F) << 6) | (b1 & 0x3F) == c
  {
  }

  lemma ThreeBytes(c: Unit)
    requires 0x800 <= c
    ensures var b0, b1, b2 := (c >> 12) | 224, ((c >> 6) & 63) | 128, (c & 63) | 128;
      !(b0 < 0x80) && b0 & 0xE0 != 0xC0 && b0 & 0xF0 == 0xE0 && b1 & 0xC0 == 0x80 && b2 & 0xC0 == 0x80
      && ((b0 & 0x0F) << 12) | ((b1 & 0x3F) << 6) | (b2 & 0x3F) == c
  {
  }

  /** Every code unit comes back from its encoding. */
  lemma {:induction false} Utf8RoundTrip(s: seq<Unit>)
    ensures DecodeUtf8(Utf8(s)) == JsValue.Some(s)
    decreases |s|
  {
    if s != [] {
      Utf8Append([s[0]], s[1..]);
      assert [s[0]] + s[1..] == s;
      assert Utf8([s[0]]) == EncodeUnit(s[0]) by {
        assert [s[0]][..0] == [];
      }
      DecodeUnit(s[0], Utf8(s[1..]));
      Utf8RoundTrip(s[1..]);
    }
  }

  // ---------------------------------------------------------------------
  // convertToWordArray (src/content.js:344-354).
  // ---------------------------------------------------------------------

  /** `string.charCodeAt(i) & 0xFF`; past the end charCodeAt gives NaN,
      which the mask turns into 0. */
  function CodeByte(s: seq<Unit>, i: nat): Word
  {
    if i < |s| then (s[i] & 0xFF) as Word else 0
  }

  /** Units i .. i+3, low byte of each, the first in the low-order position. */
  function PackAt(s: seq<Unit>, i: nat): Word
  {
    CodeByte(s, i) | (CodeByte(s, i + 1) << 8) | (CodeByte(s, i + 2) << 16) | (CodeByte(s, i + 3) << 24)
  }

  /** What convertToWordArray returns: one word per four units. */
  function Packed(s: seq<Unit>): (w: seq<Word>)
    ensures |w| == (|s| + 3) / 4
  {
    seq((|s| + 3) / 4, k requires 0 <= k < (|s| + 3) / 4 => PackAt(s, 4 * k))
  }

  method ConvertToWordArray(text: seq<Unit>) returns (wordArray: seq<Word>)
    ensures wordArray == Packed(text)
  {
    wordArray := [];
    var i := 0;
    while i < |text|
      invariant i % 4 == 0 && i < |text| + 4
      invariant |wordArray| == i / 4
      invariant forall k :: 0 <= k < i / 4 ==> wordArray[k] == PackAt(text, 4 * k)
    {
      wordArray := Store(wordArray, i / 4, PackAt(text, i));
      i := i + 4;
    }
  }

  /** Unit i sits, as its low byte, in bits 8 * (i % 4) of word i / 4, and the
      bytes after the last unit are zero. */
  lemma PackedByte(s: seq<Unit>, i: nat)
    requires i < 4 * |Packed(s)|
    ensures (Packed(s)[i / 4] >> (8 * (i % 4)) as Word) & 0xFF == CodeByte(s, i)
  {
    var j := i - i % 4;
    assert Packed(s)[i / 4] == PackAt(s, j);
    ByteOfWord(CodeByte(s, j), CodeByte(s, j + 1), CodeByte(s, j + 2), CodeByte(s, j + 3));
    if i % 4 == 0 {
      assert (8 * (i % 4)) as Word == 0;
    } else if i % 4 == 1 {
      assert (8 * (i % 4)) as Word == 8;
    } else if i % 4 == 2 {
      assert (8 * (i % 4)) as Word == 16;
    } else {
      assert (8 * (i % 4)) as Word == 24;
    }
  }

  lemma ByteOfWord(b0: Word, b1: Word, b2: Word, b3: Word)
    requires b0 < 256 && b1 < 256 && b2 < 256 && b3 < 256
    ensures var w := b0 | (b1 << 8) | (b2 << 16) | (b3 << 24);
      && (w >> 0) & 0xFF == b0 && (w >> 8) & 0xFF == b1
      && (w >> 16) & 0xFF == b2 && (w >> 24) & 0xFF == b3
  {
  }

  // ---------------------------------------------------------------------
  // wordToHex (src/content.js:356-363).
  // ---------------------------------------------------------------------

  /** Number.prototype.toString(16) on a non-negative integer: lowercase
      digits, no leading zeros. */
  function ToHexString(v: nat): (r: string)
    ensures |r| >= 1
    decreases v
  {
    if v < 16 then [Rfc.HexDigits[v]] else ToHexString(v / 16) + [Rfc.HexDigits[v % 16]]
  }

  /** String.prototype.slice(-2). */
  function SliceLast2(s: string): string
  {
    if |s| >= 2 then s[|s| - 2..] else s
  }

  /** `('0' + lByte.toString(16)).slice(-2)` is the two-digit form of the
      byte. */
  lemma TwoDigits(v: nat, b: Rfc.Byte)
    requires v == b as int
    ensures SliceLast2("0" + ToHexString(v)) == Rfc.HexByte(b)
  {
    Nibbles(b, v);
    if v < 16 {
      assert "0" + ToHexString(v) == [Rfc.HexDigits[0], Rfc.HexDigits[v]];
    } else {
      assert ToHexString(v / 16) == [Rfc.HexDigits[v / 16]];
      assert "0" + ToHexString(v) == ['0', Rfc.HexDigits[v / 16], Rfc.HexDigits[v % 16]];
    }
  }

  lemma Nibbles(b: Rfc.Byte, v: nat)
    requires v == b as int
    ensures (b >> 4) as int == v / 16 && (b & 0xF) as int == v % 16
  {
  }

  /** `(lValue >>> (lCount * 8)) & 255` is byte lCount of the word, low-order
      byte first. */
  lemma ShiftedByte(v: Word, k: nat)
    requires k < 4
    ensures (v >> (k * 8) as Word) & 255 < 256
    ensures ((v >> (k * 8) as Word) & 255) as Rfc.Byte == Rfc.WordBytes(v)[k]
    ensures ((v >> (k * 8) as Word) & 255) as int == Rfc.WordBytes(v)[k] as int
  {
    if k == 0 {
      assert (k * 8) as Word == 0;
    } else if k == 1 {
      assert (k * 8) as Word == 8;
    } else if k == 2 {
      assert (k * 8) as Word == 16;
    } else {
      assert (k * 8) as Word == 24;
    }
  }

  method WordToHex(lValue: Word) returns (wordToHexValue: string)
    ensures wordToHexValue == Rfc.Hex(Rfc.WordBytes(lValue))
  {
    ghost var bytes := Rfc.WordBytes(lValue);
    wordToHexValue := "";
    var lCount := 0;
    while lCount <= 3
      invariant lCount <= 4
      invariant wordToHexValue == Rfc.Hex(bytes[..lCount])
    {
      var lByte := (lValue >> (lCount * 8) as Word) & 255;
      ShiftedByte(lValue, lCount);
      HexStep(bytes, lCount, lByte as nat);
      wordToHexValue := wordToHexValue + SliceLast2("0" + ToHexString(lByte as nat));
      lCount := lCount + 1;
    }
    assert bytes[..4] == bytes;
  }

  /** Appending the two digits of byte k extends the hex of the bytes
      before it. */
  lemma HexStep(bytes: seq<Rfc.Byte>, k: nat, v: nat)
    requires k < |bytes| && v == bytes[k] as int
    ensures Rfc.Hex(bytes[..k + 1]) == Rfc.Hex(bytes[..k]) + SliceLast2("0" + ToHexString(v))
  {
    TwoDigits(v, bytes[k]);
    Rfc.HexAppend(bytes[..k], [bytes[k]]);
    assert bytes[..k + 1] == bytes[..k] + [bytes[k]];
    HexOne(bytes[k]);
  }

  lemma HexOne(b: Rfc.Byte)
    ensures Rfc.Hex([b]) == Rfc.HexByte(b)
  {
    assert [b][1..] == [];
  }

  // ---------------------------------------------------------------------
  // md5 (src/content.js:365-367).
  // ---------------------------------------------------------------------

  /** The registers in the order `result.map(wordToHex).join('')` writes them. */
  function DigestHex(r: Rfc.Regs): (h: string)
    ensures |h| == 32 && Rfc.IsLowerHex(h)
  {
    Rfc.Hex(Rfc.RegsBytes(r))
  }

  /** md5 as written: the bit length passed to coreMD5 is 8 * string.length,
      the length before encoding. */
  function Md5AsWritten(s: seq<Unit>): string
  {
    DigestHex(Core(Packed(Encoded(s)), |s| * 8))
  }

  /** md5 with the bit length of the encoded text. */
  function Md5Encoded(s: seq<Unit>): string
  {
    DigestHex(Core(Packed(Encoded(s)), |Encoded(s)| * 8))
  }

  method Hexed(result: seq<Word>) returns (hex: string)
    requires |result| == 4
    ensures hex == DigestHex(Rfc.Regs(result[0], result[1], result[2], result[3]))
  {
    var h0 := WordToHex(result[0]);
    var h1 := WordToHex(result[1]);
    var h2 := WordToHex(result[2]);
    var h3 := WordToHex(result[3]);
    Rfc.HexOfRegs(Rfc.Regs(result[0], result[1], result[2], result[3]));
    hex := h0 + h1 + h2 + h3;
  }

  /** src/content.js:365-367 as written. */
  method Md5(text: seq<Unit>) returns (hex: string)
    ensures hex == Md5AsWritten(text)
    ensures |hex| == 32 && Rfc.IsLowerHex(hex)
  {
    var utftext := Utf8Encode(text);
    var x := ConvertToWordArray(utftext);
    var result := CoreMd5(x, |text| * 8);
    ghost var r := Core(x, |text| * 8);
    assert Rfc.Regs(result[0], result[1], result[2], result[3]) == r;
    hex := Hexed(result);
  }

  /** The same pipeline with the length of the encoded text. */
  method Md5Fixed(text: seq<Unit>) returns (hex: string)
    ensures hex == Md5Encoded(text)
    ensures |hex| == 32 && Rfc.IsLowerHex(hex)
  {
    var utftext := Utf8Encode(text);
    var x := ConvertToWordArray(utftext);
    var result := CoreMd5(x, |utftext| * 8);
    ghost var r := Core(x, |utftext| * 8);
    assert Rfc.Regs(result[0], result[1], result[2], result[3]) == r;
    hex := Hexed(result);
  }

  /** Source lines 249-264: the sixteen steps of round 1 on the block of x at i;
      a missing word of x reads as 0. */
  method Round1(a0: Word, b0: Word, c0: Word, d0: Word, x: seq<Word>, i: nat) returns (a: Word, b: Word, c: Word, d: Word)
    ensures Rfc.Run(Rfc.Round1, Rfc.Regs(a0, b0, c0, d0), Block(x, i), Rfc.Round1Ops, 0) == Rfc.Regs(a, b, c, d)
  {
    ghost var X := Block(x, i);
    a, b, c, d := a0, b0, c0, d0;
    ghost var a0, b0, c0, d0 := a, b, c, d;
    a := Md5ff(a, b, c, d, At(x, i + 0), 7, -680876936);
    d := Md5ff(d, a, b, c, At(x, i + 1), 12, -389564586);
    c := Md5ff(c, d, a, b, At(x, i + 2), 17, 606105819);
    b := Md5ff(b, c, d, a, At(x, i + 3), 22, -1044525330);
    Rfc.Round1Line1(a0, b0, c0, d0, X, a, d, c, b);
    ghost var a1, b1, c1, d1 := a, b, c, d;
    a := Md5ff(a, b, c, d, At(x, i + 4), 7, -176418897);
    d := Md5ff(d, a, b, c, At(x, i + 5), 12, 1200080426);
    c := Md5ff(c, d, a, b, At(x, i + 6), 17, -1473231341);
    b := Md5ff(b, c, d, a, At(x, i + 7), 22, -45705983);
    Rfc.Round1Line2(a1, b1, c1, d1, X, a, d, c, b);
    ghost var a2, b2, c2, d2 := a, b, c, d;
    a := Md5ff(a, b, c, d, At(x, i + 8), 7, 1770035416);
    d := Md5ff(d, a, b, c, At(x, i + 9), 12, -1958414417);
    c := Md5ff(c, d, a, b, At(x, i + 10), 17, -42063);
    b := Md5ff(b, c, d, a, At(x, i + 11), 22, -1990404162);
    Rfc.Round1Line3(a2, b2, c2, d2, X, a, d, c, b);
    ghost var a3, b3, c3, d3 := a, b, c, d;
    a := Md5ff(a, b, c, d, At(x, i + 12), 7, 1804603682);
    d := Md5ff(d, a, b, c, At(x, i + 13), 12, -40341101);
    c := Md5ff(c, d, a, b, At(x, i + 14), 17, -1502002290);
    b := Md5ff(b, c, d, a, At(x, i + 15), 22, 1236535329);
    Rfc.Round1Line4(a3, b3, c3, d3, X, a, d, c, b);
  }

  /** Source lines 266-281: the sixteen steps of round 2 on the block of x at i;
      a missing word of x reads as 0. */
  method Round2(a0: Word, b0: Word, c0: Word, d0: Word, x: seq<Word>, i: nat) returns (a: Word, b: Word, c: Word, d: Word)
    ensures Rfc.Run(Rfc.Round2, Rfc.Regs(a0, b0, c0, d0), Block(x, i), Rfc.Round2Ops, 0) == Rfc.Regs(a, b, c, d)
  {
    ghost var X := Block(x, i);
    a, b, c, d := a0, b0, c0, d0;
    ghost var a0, b0, c0, d0 := a, b, c, d;
    a := Md5gg(a, b, c, d, At(x, i + 1), 5, -165796510);
    d := Md5gg(d, a, b, c, At(x, i + 6), 9, -1069501632);
    c := Md5gg(c, d, a, b, At(x, i + 11), 14, 643717713);
    b := Md5gg(b, c, d, a, At(x, i + 0), 20, -373897302);
    Rfc.Round2Line1(a0, b0, c0, d0, X, a, d, c, b);
    ghost var a1, b1, c1, d1 := a, b, c, d;
    a := Md5gg(a, b, c, d, At(x, i + 5), 5, -701558691);
    d := Md5gg(d, a, b, c, At(x, i + 10), 9, 38016083);
    c := Md5gg(c, d, a, b, At(x, i + 15), 14, -660478335);
    b := Md5gg(b, c, d, a, At(x, i + 4), 20, -405537848);
    Rfc.Round2Line2(a1, b1, c1, d1, X, a, d, c, b);
    ghost var a2, b2, c2, d2 := a, b, c, d;
    a := Md5gg(a, b, c, d, At(x, i + 9), 5, 568446438);
    d := Md5gg(d, a, b, c, At(x, i + 14), 9, -1019803690);
    c := Md5gg(c, d, a, b, At(x, i + 3), 14, -187363961);
    b := Md5gg(b, c, d, a, At(x, i + 8), 20, 1163531501);
    Rfc.Round2Line3(a2, b2, c2, d2, X, a, d, c, b);
    ghost var a3, b3, c3, d3 := a, b, c, d;
    a := Md5gg(a, b, c, d, At(x, i + 13), 5, -1444681467);
    d := Md5gg(d, a, b, c, At(x, i + 2), 9, -51403784);
    c := Md5gg(c, d, a, b, At(x, i + 7), 14, 1735328473);
    b := Md5gg(b, c, d, a, At(x, i + 12), 20, -1926607734);
    Rfc.Round2Line4(a3, b3, c3, d3, X, a, d, c, b);
  }

  /** Source lines 283-298: the sixteen steps of round 3 on the block of x at i;
      a missing word of x reads as 0. */
  method Round3(a0: Word, b0: Word, c0: Word, d0: Word, x: seq<Word>, i: nat) returns (a: Word, b: Word, c: Word, d: Word)
    ensures Rfc.Run(Rfc.Round3, Rfc.Regs(a0, b0, c0, d0), Block(x, i), Rfc.Round3Ops, 0) == Rfc.Regs(a, b, c, d)
  {
    ghost var X := Block(x, i);
    a, b, c, d := a0, b0, c0, d0;
    ghost var a0, b0, c0, d0 := a, b, c, d;
    a := Md5hh(a, b, c, d, At(x, i + 5), 4, -378558);
    d := Md5hh(d, a, b, c, At(x, i + 8), 11, -2022574463);
    c := Md5hh(c, d, a, b, At(x, i + 11), 16, 1839030562);
    b := Md5hh(b, c, d, a, At(x, i + 14), 23, -35309556);
    Rfc.Round3Line1(a0, b0, c0, d0, X, a, d, c, b);
    ghost var a1, b1, c1, d1 := a, b, c, d;
    a := Md5hh(a, b, c, d, At(x, i + 1), 4, -1530992060);
    d := Md5hh(d, a, b, c, At(x, i + 4), 11, 1272893353);
    c := Md5hh(c, d, a, b, At(x, i + 7), 16, -155497632);
    b := Md5hh(b, c, d, a, At(x, i + 10), 23, -1094730640);
    Rfc.Round3Line2(a1, b1, c1, d1, X, a, d, c, b);
    ghost var a2, b2, c2, d2 := a, b, c, d;
    a := Md5hh(a, b, c, d, At(x, i + 13), 4, 681279174);
    d := Md5hh(d, a, b, c, At(x, i + 0), 11, -358537222);
    c := Md5hh(c, d, a, b, At(x, i + 3), 16, -722521979);
    b := Md5hh(b, c, d, a, At(x, i + 6), 23, 76029189);
    Rfc.Round3Line3(a2, b2, c2, d2, X, a, d, c, b);
    ghost var a3, b3, c3, d3 := a, b, c, d;
    a := Md5hh(a, b, c, d, At(x, i + 9), 4, -640364487);
    d := Md5hh(d, a, b, c, At(x, i + 12), 11, -421815835);
    c := Md5hh(c, d, a, b, At(x, i + 15), 16, 530742520);
    b := Md5hh(b, c, d, a, At(x, i + 2), 23, -995338651);
    Rfc.Round3Line4(a3, b3, c3, d3, X, a, d, c, b);
  }

  /** Source lines 300-315: the sixteen steps of round 4 on the block of x at i;
      a missing word of x reads as 0. */
  method Round4(a0: Word, b0: Word, c0: Word, d0: Word, x: seq<Word>, i: nat) returns (a: Word, b: Word, c: Word, d: Word)
    ensures Rfc.Run(Rfc.Round4, Rfc.Regs(a0, b0, c0, d0), Block(x, i), Rfc.Round4Ops, 0) == Rfc.Regs(a, b, c, d)
  {
    ghost var X := Block(x, i);
    a, b, c, d := a0, b0, c0, d0;
    ghost var a0, b0, c0, d0 := a, b, c, d;
    a := Md5ii(a, b, c, d, At(x, i + 0), 6, -198630844);
    d := Md5ii(d, a, b, c, At(x, i + 7), 10, 1126891415);
    c := Md5ii(c, d, a, b, At(x, i + 14), 15, -1416354905);
    b := Md5ii(b, c, d, a, At(x, i + 5), 21, -57434055);
    Rfc.Round4Line1(a0, b0, c0, d0, X, a, d, c, b);
    ghost var a1, b1, c1, d1 := a, b, c, d;
    a := Md5ii(a, b, c, d, At(x, i + 12), 6, 1700485571);
    d := Md5ii(d, a, b, c, At(x, i + 3), 10, -1894986606);
    c := Md5ii(c, d, a, b, At(x, i + 10), 15, -1051523);
    b := Md5ii(b, c, d, a, At(x, i + 1), 21, -2054922799);
    Rfc.Round4Line2(a1, b1, c1, d1, X, a, d, c, b);
    ghost var a2, b2, c2, d2 := a, b, c, d;
    a := Md5ii(a, b, c, d, At(x, i + 8), 6, 1873313359);
    d := Md5ii(d, a, b, c, At(x, i + 15), 10, -30611744);
    c := Md5ii(c, d, a, b, At(x, i + 6), 15, -1560198380);
    b := Md5ii(b, c, d, a, At(x, i + 13), 21, 1309151649);
    Rfc.Round4Line3(a2, b2, c2, d2, X, a, d, c, b);
    ghost var a3, b3, c3, d3 := a, b, c, d;
    a := Md5ii(a, b, c, d, At(x, i + 4), 6, -145523070);
    d := Md5ii(d, a, b, c, At(x, i + 11), 10, -1120210379);
    c := Md5ii(c, d, a, b, At(x, i + 2), 15, 718787259);
    b := Md5ii(b, c, d, a, At(x, i + 9), 21, -343485551);
    Rfc.Round4Line4(a3, b3, c3, d3, X, a, d, c, b);
  }

}
