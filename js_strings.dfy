/**
 * The few JavaScript string operations the extension's helpers rely on:
 * `String.prototype.trim`, `includes` on a substring, a regular-expression
 * character class `[lo-hi]` tested against a string, and the
 * `charAt(0).toUpperCase() + slice(1)` capitalisation. Strings are sequences
 * of characters; every character range the helpers test lies in the Basic
 * Multilingual Plane, where characters and UTF-16 code units coincide.
 */
module JsString {

  /** The characters `trim` removes: WhiteSpace and LineTerminator of
      ECMAScript (section 12.2 and 12.3 of ECMA-262). */
  predicate IsSpace(c: char)
  {
    c == '\t' || c == '\n' || c == '\U{000B}' || c == '\U{000C}' || c == '\r' || c == ' ' ||
    c == '\U{00A0}' || c == '\U{1680}' || ('\U{2000}' <= c <= '\U{200A}') ||
    c == '\U{2028}' || c == '\U{2029}' || c == '\U{202F}' || c == '\U{205F}' ||
    c == '\U{3000}' || c == '\U{FEFF}'
  }

  predicate AllSpace(s: string)
  {
    forall i :: 0 <= i < |s| ==> IsSpace(s[i])
  }

  function TrimStart(s: string): (r: string)
    ensures |r| <= |s| && r == s[|s| - |r|..]
    ensures AllSpace(s[..|s| - |r|])
    ensures r == [] || !IsSpace(r[0])
  {
    if |s| > 0 && IsSpace(s[0]) then
      var r := TrimStart(s[1..]);
      assert s[1..][..|s| - 1 - |r|] == s[1..|s| - |r|];
      r
    else s
  }

  function TrimEnd(s: string): (r: string)
    ensures |r| <= |s| && r == s[..|r|]
    ensures AllSpace(s[|r|..])
    ensures r == [] || !IsSpace(r[|r| - 1])
  {
    if |s| > 0 && IsSpace(s[|s| - 1]) then
      var r := TrimEnd(s[..|s| - 1]);
      assert s[..|s| - 1][|r|..] == s[|r|..|s| - 1];
      r
    else s
  }

  /** `s.trim()`: white space removed from both ends. The result is the
      slice of `s` between a white-space prefix and a white-space suffix. */
  function Trim(s: string): (r: string)
    ensures |r| <= |s|
    ensures r == [] || (!IsSpace(r[0]) && !IsSpace(r[|r| - 1]))
    ensures exists p, q :: s == p + r + q && AllSpace(p) && AllSpace(q)
  {
    var u := TrimStart(s);
    TrimmedSlice(s, u, TrimEnd(u));
    TrimEnd(u)
  }

  /** A suffix of `s` after white space, cut before white space, leaves
      white space on either side of it in `s`. */
  lemma TrimmedSlice(s: string, u: string, r: string)
    requires |u| <= |s| && u == s[|s| - |u|..]
    requires |r| <= |u| && r == u[..|r|]
    ensures s == s[..|s| - |u|] + r + u[|r|..]
  {
    assert s == s[..|s| - |u|] + u;
    assert u == r + u[|r|..];
  }

  lemma {:induction false} TrimStartOfSpaces(w: string)
    requires AllSpace(w)
    ensures TrimStart(w) == []
  {
    if |w| > 0 {
      assert AllSpace(w[1..]);
      TrimStartOfSpaces(w[1..]);
    }
  }

  lemma {:induction false} TrimEndOfSpaces(w: string)
    requires AllSpace(w)
    ensures TrimEnd(w) == []
  {
    if |w| > 0 {
      assert AllSpace(w[..|w| - 1]);
      TrimEndOfSpaces(w[..|w| - 1]);
    }
  }

  lemma {:induction false} TrimStartPrefix(w: string, t: string)
    requires AllSpace(w)
    ensures TrimStart(w + t) == TrimStart(t)
  {
    if |w| > 0 {
      assert (w + t)[1..] == w[1..] + t;
      assert AllSpace(w[1..]);
      TrimStartPrefix(w[1..], t);
    } else {
      assert w + t == t;
    }
  }

  lemma {:induction false} TrimEndSuffix(t: string, w: string)
    requires AllSpace(w)
    ensures TrimEnd(t + w) == TrimEnd(t)
  {
    if |w| > 0 {
      assert (t + w)[..|t + w| - 1] == t + w[..|w| - 1];
      assert AllSpace(w[..|w| - 1]);
      TrimEndSuffix(t, w[..|w| - 1]);
    } else {
      assert t + w == t;
    }
  }

  lemma {:induction false} TrimSuffix(t: string, w: string)
    requires AllSpace(w)
    ensures Trim(t + w) == Trim(t)
  {
    if |t| == 0 {
      assert t + w == w;
      TrimStartOfSpaces(w);
      assert TrimStart(t) == [];
    } else if IsSpace(t[0]) {
      assert (t + w)[1..] == t[1..] + w;
      TrimSuffix(t[1..], w);
    } else {
      TrimEndSuffix(t, w);
    }
  }

  /** Texts that differ only in white space around them trim to the same
      string. */
  lemma TrimOuterSpace(w1: string, t: string, w2: string)
    requires AllSpace(w1) && AllSpace(w2)
    ensures Trim(w1 + t + w2) == Trim(t)
  {
    assert w1 + t + w2 == w1 + (t + w2);
    TrimStartPrefix(w1, t + w2);
    TrimSuffix(t, w2);
  }

  /** Trimming twice is trimming once. */
  lemma TrimIdempotent(s: string)
    ensures Trim(Trim(s)) == Trim(s)
  {
    var r := Trim(s);
    if r != [] {
      assert TrimStart(r) == r;
      assert TrimEnd(r) == r;
    }
  }

  // ---------------------------------------------------------------------
  // includes and character classes.
  // ---------------------------------------------------------------------

  /** p occurs in s at position i. */
  predicate OccursAt(s: string, p: string, i: nat)
  {
    i + |p| <= |s| && s[i..i + |p|] == p
  }

  /** `s.includes(p)`. */
  predicate Contains(s: string, p: string)
  {
    exists i: nat :: i <= |s| && OccursAt(s, p, i)
  }

  /** A string that contains p still does with text added on either side. */
  lemma ContainsExtended(u: string, s: string, t: string, p: string)
    requires Contains(s, p)
    ensures Contains(u + s + t, p)
  {
    var i: nat :| i <= |s| && OccursAt(s, p, i);
    assert (u + s + t)[|u| + i..|u| + i + |p|] == s[i..i + |p|];
    assert OccursAt(u + s + t, p, |u| + i);
  }

  /** `/[lo-hi]/.test(s)`. */
  predicate HasCharIn(s: string, lo: char, hi: char)
  {
    exists i :: 0 <= i < |s| && lo <= s[i] <= hi
  }

  /** A character class matches a concatenation exactly when it matches one
      of its parts. */
  lemma HasCharInConcat(a: string, b: string, lo: char, hi: char)
    ensures HasCharIn(a + b, lo, hi) <==> HasCharIn(a, lo, hi) || HasCharIn(b, lo, hi)
  {
    if HasCharIn(a + b, lo, hi) {
      var i :| 0 <= i < |a + b| && lo <= (a + b)[i] <= hi;
      if i >= |a| {
        assert b[i - |a|] == (a + b)[i];
      }
    }
    if HasCharIn(a, lo, hi) {
      var i :| 0 <= i < |a| && lo <= a[i] <= hi;
      assert (a + b)[i] == a[i];
    }
    if HasCharIn(b, lo, hi) {
      var i :| 0 <= i < |b| && lo <= b[i] <= hi;
      assert (a + b)[|a| + i] == b[i];
    }
  }

  // ---------------------------------------------------------------------
  // Capitalisation.
  // ---------------------------------------------------------------------

  /** `toUpperCase` on one character, for the Latin letters a-z. */
  function UpperAscii(c: char): (r: char)
    ensures 'a' <= c <= 'z' ==> 'A' <= r <= 'Z'
    ensures !('a' <= c <= 'z') ==> r == c
  {
    if 'a' <= c <= 'z' then (c as int - 32) as char else c
  }

  /** `s.charAt(0).toUpperCase() + s.slice(1)`. */
  function Capitalized(s: string): (r: string)
    ensures |r| == |s| && (s != [] ==> r[0] == UpperAscii(s[0]) && r[1..] == s[1..])
  {
    if s == [] then [] else [UpperAscii(s[0])] + s[1..]
  }
}
