/**
 * The translation service of src/utils/translator.js: language detection by
 * script, the cache key, the table of API error codes, the bounded cache
 * that `translate` fills, the retry loop of `callTranslationAPI` with its
 * capped exponential back-off, and the unused `addUnsigned` helper. The
 * network is a parameter: the reply to attempt k is `replies(k)`, and the
 * clock reading stored in a result is `now`.
 */
module Translator {
  import opened JsValue
  import opened JsString

  // ---------------------------------------------------------------------
  // detectLanguage (lines 185-213).
  // ---------------------------------------------------------------------

  /** The scripts tested, in the order they are tested; En is the fallback. */
  datatype Script = Zh | Ja | Ko | Ru | Ara | En

  function Rank(s: Script): nat
  {
    match s
    case Zh => 0
    case Ja => 1
    case Ko => 2
    case Ru => 3
    case Ara => 4
    case En => 5
  }

  /** The character classes of each test: CJK ideographs, hiragana and
      katakana, Hangul syllables, Cyrillic, Arabic. Nothing marks English. */
  predicate Shows(text: string, s: Script)
  {
    match s
    case Zh => HasCharIn(text, '一', '龥')
    case Ja => HasCharIn(text, '぀', 'ゟ') || HasCharIn(text, '゠', 'ヿ')
    case Ko => HasCharIn(text, '가', '힯')
    case Ru => HasCharIn(text, 'Ѐ', 'ӿ')
    case Ara => HasCharIn(text, '؀', 'ۿ')
    case En => false
  }

  /** The script detected: the first in test order that the text shows,
      else En. */
  function Detect(text: string): (s: Script)
    ensures s != En ==> Shows(text, s)
    ensures forall t :: Rank(t) < Rank(s) ==> !Shows(text, t)
  {
    if Shows(text, Zh) then Zh
    else if Shows(text, Ja) then Ja
    else if Shows(text, Ko) then Ko
    else if Shows(text, Ru) then Ru
    else if Shows(text, Ara) then Ara
    else En
  }

  function Code(s: Script): string
  {
    match s
    case Zh => "zh"
    case Ja => "ja"
    case Ko => "ko"
    case Ru => "ru"
    case Ara => "ara"
    case En => "en"
  }

  /** detectLanguage: the tests run in the order Chinese, Japanese, Korean,
      Russian, Arabic, and the first script the text shows wins; text that
      shows none is English. */
  function DetectLanguage(text: string): (lang: string)
    ensures lang == "zh" <==> Shows(text, Zh)
    ensures lang == "ja" <==> !Shows(text, Zh) && Shows(text, Ja)
    ensures lang == "ko" <==> !Shows(text, Zh) && !Shows(text, Ja) && Shows(text, Ko)
    ensures lang == "ru" <==> !Shows(text, Zh) && !Shows(text, Ja) && !Shows(text, Ko) && Shows(text, Ru)
    ensures lang == "ara" <==>
      !Shows(text, Zh) && !Shows(text, Ja) && !Shows(text, Ko) && !Shows(text, Ru) && Shows(text, Ara)
    ensures lang == "en" <==>
      !Shows(text, Zh) && !Shows(text, Ja) && !Shows(text, Ko) && !Shows(text, Ru) && !Shows(text, Ara)
  {
    Code(Detect(text))
  }

  lemma ShowsConcat(a: string, b: string, s: Script)
    ensures Shows(a + b, s) <==> Shows(a, s) || Shows(b, s)
  {
    match s
    case Zh => HasCharInConcat(a, b, '一', '龥');
    case Ja =>
      HasCharInConcat(a, b, '぀', 'ゟ');
      HasCharInConcat(a, b, '゠', 'ヿ');
    case Ko => HasCharInConcat(a, b, '가', '힯');
    case Ru => HasCharInConcat(a, b, 'Ѐ', 'ӿ');
    case Ara => HasCharInConcat(a, b, '؀', 'ۿ');
    case En =>
  }

  /** Joining two texts detects whichever of their two scripts is tested
      first. */
  lemma DetectConcat(a: string, b: string)
    ensures Rank(Detect(a + b)) == if Rank(Detect(a)) <= Rank(Detect(b)) then Rank(Detect(a)) else Rank(Detect(b))
  {
    var s, sa, sb := Detect(a + b), Detect(a), Detect(b);
    var m := if Rank(sa) <= Rank(sb) then sa else sb;
    ShowsConcat(a, b, s);
    ShowsConcat(a, b, m);
    forall t | Rank(t) < Rank(m)
      ensures !Shows(a + b, t)
    {
      ShowsConcat(a, b, t);
    }
    if m != En {
      assert Shows(a + b, m);
    }
  }

  // ---------------------------------------------------------------------
  // Languages and getCacheKey (lines 32-33, 216-220).
  // ---------------------------------------------------------------------

  /** A language option as a string; an absent or non-string option reads as
      the empty, falsy string. */
  function LanguageOf(v: Option<Json>): string
  {
    if v.Some? && v.value.Str? then v.value.s else ""
  }

  /** `first || second || dflt` on strings. */
  function Either(first: string, second: string, dflt: string): (r: string)
    ensures first != "" ==> r == first
    ensures first == "" && second != "" ==> r == second
    ensures first == "" && second == "" ==> r == dflt
  {
    if first != "" then first else if second != "" then second else dflt
  }

  /** `options.from || this.config.language?.from || 'auto'`. */
  function FromLanguage(options: map<string, Json>, config: map<string, Json>): (r: string)
    ensures r != ""
  {
    Either(LanguageOf(Lookup(options, "from")), LanguageOf(Member(Lookup(config, "language"), "from")), "auto")
  }

  /** `options.to || this.config.language?.to || 'zh'`. */
  function ToLanguage(options: map<string, Json>, config: map<string, Json>): (r: string)
    ensures r != ""
  {
    Either(LanguageOf(Lookup(options, "to")), LanguageOf(Member(Lookup(config, "language"), "to")), "zh")
  }

  /** getCacheKey: `${from}-${to}-${text.trim()}`. */
  function GetCacheKey(text: string, options: map<string, Json>, config: map<string, Json>): string
  {
    FromLanguage(options, config) + "-" + ToLanguage(options, config) + "-" + Trim(text)
  }

  /** The key begins with the source language and a dash, and ends with a
      dash and the trimmed text. */
  lemma CacheKeyShape(text: string, options: map<string, Json>, config: map<string, Json>)
    ensures var k, from, to, t := GetCacheKey(text, options, config), FromLanguage(options, config), ToLanguage(options, config), Trim(text);
      |k| == |from| + |to| + |t| + 2 && k[..|from| + 1] == from + "-" && k[|k| - |t| - 1..] == "-" + t
  {
    var from, to, t := FromLanguage(options, config), ToLanguage(options, config), Trim(text);
    assert GetCacheKey(text, options, config) == from + "-" + to + "-" + t;
    DashJoined(from, to, t);
  }

  lemma DashJoined(a: string, b: string, t: string)
    ensures var k := a + "-" + b + "-" + t;
      |k| == |a| + |b| + |t| + 2 && k[..|a| + 1] == a + "-" && k[|k| - |t| - 1..] == "-" + t
  {
    var k := a + "-" + b + "-" + t;
    assert k == (a + "-") + (b + "-" + t);
    assert k == (a + "-" + b) + ("-" + t);
  }

  /** Texts that differ only in white space around them share a cache
      entry. */
  lemma CacheKeyOuterSpace(w1: string, text: string, w2: string, options: map<string, Json>, config: map<string, Json>)
    requires AllSpace(w1) && AllSpace(w2)
    ensures GetCacheKey(w1 + text + w2, options, config) == GetCacheKey(text, options, config)
  {
    TrimOuterSpace(w1, text, w2);
  }

  /** With no options and no configured languages the key is
      `auto-zh-` and the trimmed text. */
  lemma CacheKeyDefaults(text: string, config: map<string, Json>)
    requires "language" !in config
    ensures GetCacheKey(text, map[], config) == "auto" + "-" + "zh" + "-" + Trim(text)
  {
    assert Lookup(map[], "from") == None && Lookup(map[], "to") == None;
  }

  // ---------------------------------------------------------------------
  // getErrorMessage (lines 223-240).
  // ---------------------------------------------------------------------

  const ErrorMessages: map<string, string> := map[
    "52001" := "APP ID无效",
    "52002" := "签名错误",
    "52003" := "访问频率受限",
    "54000" := "必填参数为空",
    "54001" := "签名错误",
    "54003" := "访问频率受限",
    "54004" := "账户余额不足",
    "54005" := "长query请求频繁",
    "58000" := "客户端IP非法",
    "58001" := "译文语言方向不支持",
    "58002" := "服务当前已关闭",
    "90107" := "认证未通过或未生效"
  ]

  /** No entry of the table is empty. */
  lemma ErrorMessagesNonEmpty()
    ensures forall code :: code in ErrorMessages ==> ErrorMessages[code] != ""
  {
  }

  /** getErrorMessage: the table entry, else the API's own message, else
      `未知错误 (code)`; never empty. */
  function GetErrorMessage(code: string, msg: string): (r: string)
    ensures code in ErrorMessages ==> r == ErrorMessages[code]
    ensures code !in ErrorMessages && msg != "" ==> r == msg
    ensures code !in ErrorMessages && msg == "" ==> r == "未知错误 (" + code + ")"
    ensures r != ""
  {
    ErrorMessagesNonEmpty();
    if code in ErrorMessages then ErrorMessages[code]
    else if msg != "" then msg
    else "未知错误 (" + code + ")"
  }

  // ---------------------------------------------------------------------
  // addUnsigned (lines 160-178).
  // ---------------------------------------------------------------------

  /** The helper adds the low 30 bits and patches bits 30 and 31 from the
      carries; the result is the 32-bit sum. */
  function AddUnsigned(x: bv32, y: bv32): (r: bv32)
    ensures r == x + y
  {
    var x4, y4 := x & 0x4000_0000, y & 0x4000_0000;
    if x4 & y4 != 0 then BothBit30(x, y)
    else if x4 | y4 != 0 then OneBit30(x, y)
    else NoBit30(x, y)
  }

  /** `(x & 0x3FFFFFFF) + (y & 0x3FFFFFFF)`, which cannot overflow. */
  function LowSum(x: bv32, y: bv32): bv32
  {
    (x & 0x3FFF_FFFF) + (y & 0x3FFF_FFFF)
  }

  /** Both operands have bit 30: its carry flips bit 31. */
  function BothBit30(x: bv32, y: bv32): (r: bv32)
    ensures (x & 0x4000_0000) & (y & 0x4000_0000) != 0 ==> r == x + y
  {
    LowSum(x, y) ^ 0x8000_0000 ^ (x & 0x8000_0000) ^ (y & 0x8000_0000)
  }

  /** One operand has bit 30: it combines with the low sum's carry. */
  function OneBit30(x: bv32, y: bv32): (r: bv32)
    ensures (x & 0x4000_0000) & (y & 0x4000_0000) == 0 && (x & 0x4000_0000) | (y & 0x4000_0000) != 0 ==> r == x + y
  {
    if LowSum(x, y) & 0x4000_0000 != 0 then LowSum(x, y) ^ 0xC000_0000 ^ (x & 0x8000_0000) ^ (y & 0x8000_0000)
    else LowSum(x, y) ^ 0x4000_0000 ^ (x & 0x8000_0000) ^ (y & 0x8000_0000)
  }

  /** Neither operand has bit 30. */
  function NoBit30(x: bv32, y: bv32): (r: bv32)
    ensures (x & 0x4000_0000) | (y & 0x4000_0000) == 0 ==> r == x + y
  {
    LowSum(x, y) ^ (x & 0x8000_0000) ^ (y & 0x8000_0000)
  }

  // ---------------------------------------------------------------------
  // One attempt of callTranslationAPI (lines 93-129).
  // ---------------------------------------------------------------------

  datatype Translation = Translation(
    originalText: string,
    translatedText: string,
    detectedLanguage: string,
    fromLanguage: string,
    toLanguage: string,
    cached: bool,
    timestamp: Option<int>)

  /** What the network gives an attempt: a rejected fetch (a failure or the
      timeout's abort) with the error's message, or a response with its
      status, the body's `error_code` and `error_msg` ("" when absent), the
      `dst` of `trans_result[0]` when there is one, and `from`. A `dst` of None
      stands for a body without `trans_result[0]`; a `trans_result[0]` that
      lacks `dst`, on which the code resolves with `translatedText` undefined,
      is not represented. */
  datatype Reply =
    | Rejected(message: string)
    | Response(ok: bool, status: nat, errorCode: string, errorMsg: string, dst: Option<string>, from: string)

  /** An attempt that returns a translation instead of throwing. */
  predicate Succeeds(reply: Reply)
  {
    reply.Response? && reply.ok && reply.errorCode == "" && reply.dst.Some?
  }

  /** The translation an attempt returns, or the message of what it throws. */
  function AttemptOutcome(reply: Reply, text: string, from: string, to: string, now: int): (r: Result<Translation>)
    ensures r.Ok? <==> Succeeds(reply)
    ensures r.Ok? ==> (r.value.originalText == text && r.value.translatedText == reply.dst.value &&
                       r.value.fromLanguage == from && r.value.toLanguage == to && !r.value.cached)
    ensures reply.Response? && !reply.ok ==> r == Throws("HTTP错误: " + Decimal(reply.status))
    ensures reply.Response? && reply.ok && reply.errorCode != "" ==>
      r == Throws(GetErrorMessage(reply.errorCode, reply.errorMsg))
  {
    match reply
    case Rejected(m) => Throws(m)
    case Response(ok, status, code, msg, dst, detected) =>
      if !ok then Throws("HTTP错误: " + Decimal(status))
      else if code != "" then Throws(GetErrorMessage(code, msg))
      else if dst.None? then Throws("翻译结果格式错误")
      else Ok(Translation(text, dst.value, Either(detected, from, ""), from, to, false, Some(now)))
  }

  // ---------------------------------------------------------------------
  // The retry schedule (lines 91-143).
  // ---------------------------------------------------------------------

  function Pow2(n: nat): (p: nat)
    ensures p >= 1
  {
    if n == 0 then 1 else 2 * Pow2(n - 1)
  }

  lemma {:induction false} Pow2Monotone(m: nat, n: nat)
    requires m <= n
    ensures Pow2(m) <= Pow2(n)
  {
    if m < n {
      Pow2Monotone(m, n - 1);
    }
  }

  /** `Math.min(1000 * Math.pow(2, attempt - 1), 5000)`. */
  function BackoffDelay(attempt: nat): (d: nat)
    requires attempt >= 1
    ensures d <= 5000
  {
    if 1000 * Pow2(attempt - 1) < 5000 then 1000 * Pow2(attempt - 1) else 5000
  }

  /** The delays are 1, 2 and 4 seconds, then the 5-second cap. */
  lemma BackoffSchedule(attempt: nat)
    requires attempt >= 1
    ensures attempt == 1 ==> BackoffDelay(attempt) == 1000
    ensures attempt == 2 ==> BackoffDelay(attempt) == 2000
    ensures attempt == 3 ==> BackoffDelay(attempt) == 4000
    ensures attempt >= 4 ==> BackoffDelay(attempt) == 5000
  {
    if attempt >= 4 {
      Pow2Monotone(3, attempt - 1);
      assert Pow2(3) == 8;
    } else {
      assert Pow2(2) == 4;
    }
  }

  /** Each delay doubles the one before, up to the cap. */
  lemma BackoffDoubles(attempt: nat)
    requires attempt >= 1
    ensures BackoffDelay(attempt + 1) == if 2 * BackoffDelay(attempt) < 5000 then 2 * BackoffDelay(attempt) else 5000
  {
  }

  /** The delays slept after attempts 1 to m. */
  function Backoffs(m: nat): (ds: seq<nat>)
    ensures |ds| == m && forall i :: 0 <= i < m ==> ds[i] == BackoffDelay(i + 1)
  {
    seq(m, i requires 0 <= i < m => BackoffDelay(i + 1))
  }

  lemma BackoffsSnoc(m: nat)
    ensures Backoffs(m + 1) == Backoffs(m) + [BackoffDelay(m + 1)]
  {
  }

  /** The first attempt from k to n that succeeds, or the first past n when
      none does. */
  function FirstSuccess(replies: nat -> Reply, k: nat, n: int): (j: nat)
    ensures k <= j && (k <= n + 1 ==> j <= n + 1) && (k > n ==> j == k)
    ensures j <= n ==> Succeeds(replies(j))
    ensures forall i :: k <= i < j ==> !Succeeds(replies(i))
    decreases n - k
  {
    if k > n || Succeeds(replies(k)) then k else FirstSuccess(replies, k + 1, n)
  }

  /** The attempts `for (attempt = 1; attempt <= x; attempt++)` makes when
      none succeeds: the whole numbers from 1 to the floor of x. */
  function Attempts(x: real): (n: nat)
    ensures n == 0 || n as real <= x
    ensures x < (n + 1) as real || x < 1.0
  {
    if x >= 1.0 then x.Floor else 0
  }

  /** Attempt a >= 1 runs exactly when a <= Attempts(x), and every attempt
      before the last is below x. */
  lemma AttemptBound(x: real, a: nat)
    requires a >= 1
    ensures a as real <= x <==> a <= Attempts(x)
    ensures a < Attempts(x) ==> a as real < x
  {
  }

  /** What retrying gives: the first success among the attempts, else the
      error of the last attempt, else (no attempt at all) `undefined`. */
  datatype Outcome = Done(translation: Translation) | Threw(error: Option<string>)

  function RetryOutcome(replies: nat -> Reply, x: real, text: string, from: string, to: string, now: int): (r: Outcome)
    ensures r.Done? <==> FirstSuccess(replies, 1, Attempts(x)) <= Attempts(x)
  {
    var n := Attempts(x);
    var j := FirstSuccess(replies, 1, n);
    if j <= n then Done(AttemptOutcome(replies(j), text, from, to, now).value)
    else if n >= 1 then Threw(Some(AttemptOutcome(replies(n), text, from, to, now).message))
    else Threw(None)
  }

  /** The delays slept: one after each failed attempt below x
      (`attempt < this.retryCount`). */
  function RetryDelays(replies: nat -> Reply, x: real): (ds: seq<nat>)
    ensures |ds| <= Attempts(x)
  {
    var n := Attempts(x);
    var j := FirstSuccess(replies, 1, n);
    if j <= n then Backoffs(j - 1)
    else if n >= 1 && (n as real) < x then Backoffs(n)
    else if n >= 1 then Backoffs(n - 1)
    else []
  }

  /** The first success at attempt j is returned after the back-offs of the
      j - 1 attempts that failed before it. */
  lemma RetrySucceeds(replies: nat -> Reply, x: real, j: nat, text: string, from: string, to: string, now: int)
    requires 1 <= j <= Attempts(x) && Succeeds(replies(j))
    requires forall i :: 1 <= i < j ==> !Succeeds(replies(i))
    ensures RetryOutcome(replies, x, text, from, to, now) == Done(AttemptOutcome(replies(j), text, from, to, now).value)
    ensures RetryDelays(replies, x) == Backoffs(j - 1)
  {
  }

  /** When every attempt fails, the error of the last one is rethrown. A
      whole count x sleeps after all attempts but the last; a fractional one
      sleeps after the last as well, since it is still below x. */
  lemma RetryExhausted(replies: nat -> Reply, x: real, text: string, from: string, to: string, now: int)
    requires Attempts(x) >= 1 && forall i :: 1 <= i <= Attempts(x) ==> !Succeeds(replies(i))
    ensures RetryOutcome(replies, x, text, from, to, now) == Threw(Some(AttemptOutcome(replies(Attempts(x)), text, from, to, now).message))
    ensures x == Attempts(x) as real ==> RetryDelays(replies, x) == Backoffs(Attempts(x) - 1)
    ensures x != Attempts(x) as real ==> RetryDelays(replies, x) == Backoffs(Attempts(x))
  {
  }

  /** With `retryCount` 2.5 and every request failing, two attempts are
      made and both are followed by a back-off; with 2 only the first is. */
  lemma RetryFractional()
    ensures RetryDelays(_ => Rejected("e"), 2.5) == [1000, 2000]
    ensures RetryDelays(_ => Rejected("e"), 2.0) == [1000]
  {
    assert Attempts(2.5) == 2 && Attempts(2.0) == 2;
    BackoffSchedule(1);
    BackoffSchedule(2);
  }

  /** Both `appid` and `key` configured. */
  predicate Credentialed(config: map<string, Json>)
  {
    Truthy(Lookup(config, "appid")) && Truthy(Lookup(config, "key"))
  }

  // ---------------------------------------------------------------------
  // The signature (lines 76-77 and 147-182). md5 here is a stand-in built
  // on `btoa`, which accepts only text whose code units are at most 0xFF.
  // ---------------------------------------------------------------------

  /** Every code unit of s is at most 0xFF (a character beyond U+FFFF is two
      code units, both above 0xFF). */
  predicate Latin1(s: string)
  {
    forall i :: 0 <= i < |s| ==> s[i] <= '\U{00FF}'
  }

  /** The text JavaScript makes of a value for `appid + query` is Latin-1:
      numbers, booleans, null and objects render in ASCII, a string is
      itself, and an array joins the texts of its elements. */
  predicate TextLatin1(v: Json)
  {
    match v
    case Str(t) => Latin1(t)
    case Arr(items) => forall i :: 0 <= i < |items| ==> TextLatin1(items[i])
    case _ => true
  }

  /** generateSign gets past `btoa`: appid, the query and key render in
      Latin-1 (the salt is the decimal digits of `Date.now()`, and
      `undefined` renders in ASCII). */
  predicate Signable(config: map<string, Json>, text: string)
  {
    var appid, key := Lookup(config, "appid"), Lookup(config, "key");
    (appid.None? || TextLatin1(appid.value)) && Latin1(text) && (key.None? || TextLatin1(key.value))
  }

  /** The name of the DOMException `btoa` throws on a code unit above 0xFF;
      its message differs between browsers. */
  const SignError := "InvalidCharacterError"

  /** What callTranslationAPI settles to: the credential check, then the
      signature, which throws before any request for text `btoa` refuses,
      then the retry loop. */
  function ApiOutcome(config: map<string, Json>, x: real, text: string, from: string, to: string,
                      replies: nat -> Reply, now: int): (r: Outcome)
    ensures !Credentialed(config) ==> r == Threw(Some("请先配置百度翻译API密钥"))
    ensures Credentialed(config) && !Signable(config, text) ==> r == Threw(Some(SignError))
    ensures Credentialed(config) && Signable(config, text) ==> r == RetryOutcome(replies, x, text, from, to, now)
  {
    if !Credentialed(config) then Threw(Some("请先配置百度翻译API密钥"))
    else if !Signable(config, text) then Threw(Some(SignError))
    else RetryOutcome(replies, x, text, from, to, now)
  }

  /** The delays slept: none unless the request is credentialed and
      signed, then those of the retry loop. */
  function ApiDelays(config: map<string, Json>, x: real, text: string, replies: nat -> Reply): (ds: seq<nat>)
    ensures !Credentialed(config) || !Signable(config, text) ==> ds == []
    ensures Credentialed(config) && Signable(config, text) ==> ds == RetryDelays(replies, x)
  {
    if Credentialed(config) && Signable(config, text) then RetryDelays(replies, x) else []
  }

  /** Every text detected as other than English holds a character of its
      script, and every such character is above 0xFF: with credentials, the
      signature throws for it before any request is sent. */
  lemma {:induction false} DetectedRejected(config: map<string, Json>, x: real, text: string, from: string, to: string,
                                            replies: nat -> Reply, now: int)
    requires Credentialed(config) && DetectLanguage(text) != "en"
    ensures ApiOutcome(config, x, text, from, to, replies, now) == Threw(Some(SignError))
    ensures ApiDelays(config, x, text, replies) == []
  {
    var s := Detect(text);
    assert Shows(text, s);
    var i :| 0 <= i < |text| && '\U{0400}' <= text[i];
    assert !Latin1(text);
  }

  /** The greeting こんにちは is refused by the signature. */
  lemma KanaRejected(config: map<string, Json>, x: real, replies: nat -> Reply, now: int)
    requires Credentialed(config)
    ensures ApiOutcome(config, x, "こんにちは", "auto", "zh", replies, now) == Threw(Some(SignError))
  {
    assert "こんにちは"[0] == 'こ';
  }

  /** `config.cacheEnabled !== false`. */
  predicate CacheEnabled(config: map<string, Json>)
  {
    Lookup(config, "cacheEnabled") != Some(Bool(false))
  }

  /** `config.retryCount || 3`, the number `attempt` is compared with: a
      number is itself, a true is 1, and any other truthy value compares as
      NaN, which no attempt is below or equal to, so it reads as 0. */
  function RetryCount(config: map<string, Json>): (x: real)
    ensures var v := Lookup(config, "retryCount"); !Truthy(v) ==> x == 3.0
    ensures var v := Lookup(config, "retryCount"); Truthy(v) && v.value.Num? ==> x == v.value.n
    ensures var v := Lookup(config, "retryCount"); v == Some(Bool(true)) ==> x == 1.0
    ensures var v := Lookup(config, "retryCount");
      (Truthy(v) && !v.value.Num? && !v.value.Bool?) ==> Attempts(x) == 0
  {
    var v := Lookup(config, "retryCount");
    if !Truthy(v) then 3.0
    else match v.value
      case Num(x) => x
      case Bool(_) => 1.0
      case _ => 0.0
  }

  /** Map.prototype.set and the size check: a known key keeps its place, a
      new key goes last, and past 1000 entries the first key is dropped. */
  predicate DistinctKeys(keys: seq<string>)
  {
    forall i, j :: 0 <= i < j < |keys| ==> keys[i] != keys[j]
  }

  /** The cache after `set(key, value)` and the size check, against the
      cache before: a known key keeps its place, a new key goes last, and
      when that makes 1001 entries the first key is dropped. */
  predicate Stored(keys0: seq<string>, cache0: map<string, Translation>, key: string, value: Translation,
                   keys: seq<string>, cache: map<string, Translation>)
  {
    if key in cache0 then keys == keys0 && cache == cache0[key := value]
    else if |keys0| < 1000 then keys == keys0 + [key] && cache == cache0[key := value]
    else |keys0| >= 1 && keys == keys0[1..] + [key] && cache == cache0[key := value] - {keys0[0]}
  }

  lemma AppendKey(keys: seq<string>, cache: map<string, Translation>, key: string, value: Translation)
    requires DistinctKeys(keys) && (forall k :: k in cache <==> k in keys) && key !in cache
    ensures DistinctKeys(keys + [key])
    ensures forall k :: k in cache[key := value] <==> k in keys + [key]
  {
  }

  /** Dropping the first key of the cache keeps the keys and the entries in
      step. */
  lemma EvictFirst(keys: seq<string>, cache: map<string, Translation>)
    requires DistinctKeys(keys) && |keys| >= 1 && (forall k :: k in cache <==> k in keys)
    ensures DistinctKeys(keys[1..])
    ensures forall k :: k in cache - {keys[0]} <==> k in keys[1..]
  {
    forall k | k in keys[1..]
      ensures k != keys[0]
    {
      var i :| 0 <= i < |keys[1..]| && keys[1..][i] == k;
      assert keys[i + 1] == k;
    }
    forall k | k in keys && k != keys[0]
      ensures k in keys[1..]
    {
      var i :| 0 <= i < |keys| && keys[i] == k;
      assert keys[1..][i - 1] == k;
    }
  }

  class TranslationService {
    var config: map<string, Json>
    var retryCount: real
    /** The cache's keys in insertion order, and its entries. */
    var keys: seq<string>
    var cache: map<string, Translation>

    const MaxCacheSize: nat := 1000

    ghost predicate Valid()
      reads this
    {
      DistinctKeys(keys) && (forall k :: k in cache <==> k in keys) && |keys| <= MaxCacheSize
    }

    /** The constructor. */
    constructor(config: map<string, Json>)
      ensures Valid()
      ensures this.config == config && retryCount == RetryCount(config)
      ensures keys == [] && cache == map[]
    {
      this.config := config;
      retryCount := RetryCount(config);
      keys := [];
      cache := map[];
    }

    /** updateConfig: the update's properties over the old ones; the retry
        count stays the one the constructor read. */
    method UpdateConfig(update: map<string, Json>)
      modifies this
      ensures config == old(config) + update
      ensures retryCount == old(retryCount) && keys == old(keys) && cache == old(cache)
    {
      config := config + update;
    }

    /** The cache insert and eviction of lines 52-57. */
    method CacheStore(key: string, value: Translation)
      requires Valid()
      modifies this
      ensures Valid()
      ensures key in cache && cache[key] == value
      ensures Stored(old(keys), old(cache), key, value, keys, cache)
      ensures config == old(config) && retryCount == old(retryCount)
    {
      if key in cache {
        cache := cache[key := value];
      } else {
        var k0, c0 := keys, cache;
        AppendKey(k0, c0, key, value);
        var k1, c1 := k0 + [key], c0[key := value];
        if |k1| > MaxCacheSize {
          assert k1[0] == k0[0] != key;
          assert k1[1..] == k0[1..] + [key];
          EvictFirst(k1, c1);
          keys, cache := k1[1..], c1 - {k1[0]};
        } else {
          keys, cache := k1, c1;
        }
      }
    }

    /** callTranslationAPI: the configured credentials are required; the
        signature then throws, before any request, when `btoa` refuses the
        signed text; then come the attempts 1, 2, ... that do not exceed
        retryCount, sleeping after each failed one that is below retryCount,
        until one succeeds. The value of the signature and the request
        itself are not modelled. */
    method CallTranslationAPI(text: string, from: string, to: string, replies: nat -> Reply, now: int)
      returns (r: Outcome, delays: seq<nat>)
      ensures r == ApiOutcome(config, retryCount, text, from, to, replies, now)
      ensures delays == ApiDelays(config, retryCount, text, replies)
    {
      if !(Truthy(Lookup(config, "appid")) && Truthy(Lookup(config, "key"))) {
        return Threw(Some("请先配置百度翻译API密钥")), [];
      }
      if !Signable(config, text) {
        return Threw(Some(SignError)), [];
      }
      var lastError: Option<string> := None;
      delays := [];
      var attempt: nat := 1;
      ghost var n := Attempts(retryCount);
      AttemptBound(retryCount, attempt);
      while attempt as real <= retryCount
        invariant 1 <= attempt <= n + 1
        invariant attempt as real <= retryCount <==> attempt <= n
        invariant forall i :: 1 <= i < attempt ==> !Succeeds(replies(i))
        invariant attempt == 1 ==> lastError == None
        invariant attempt > 1 ==> lastError == Some(AttemptOutcome(replies(attempt - 1), text, from, to, now).message)
        invariant attempt <= n || n == 0 ==> delays == Backoffs(attempt - 1)
        invariant attempt == n + 1 && n >= 1 ==> delays == if (n as real) < retryCount then Backoffs(n) else Backoffs(n - 1)
        decreases n + 1 - attempt
      {
        var outcome := AttemptOutcome(replies(attempt), text, from, to, now);
        if outcome.Ok? {
          RetrySucceeds(replies, retryCount, attempt, text, from, to, now);
          return Done(outcome.value), delays;
        }
        lastError := Some(outcome.message);
        AttemptBound(retryCount, attempt);
        if attempt as real < retryCount {
          BackoffsSnoc(attempt - 1);
          delays := delays + [BackoffDelay(attempt)];
        }
        attempt := attempt + 1;
        AttemptBound(retryCount, attempt);
      }
      if n >= 1 {
        RetryExhausted(replies, retryCount, text, from, to, now);
        assert (n as real) < retryCount <==> retryCount != n as real;
      } else {
        assert FirstSuccess(replies, 1, n) == 1;
      }
      r := Threw(lastError);
    }

    /** translate: an empty or blank text throws; a cached key is answered
        from the cache; a text already in the target language comes back
        unchanged and uncached; otherwise the API's translation is cached
        (unless `cacheEnabled` is false) and returned, and its error
        rethrown. */
    method Translate(text: string, options: map<string, Json>, replies: nat -> Reply, now: int)
      returns (r: Outcome, delays: seq<nat>)
      requires Valid()
      modifies this
      ensures Valid()
      ensures config == old(config) && retryCount == old(retryCount)
      ensures Trim(text) == "" ==> r == Threw(Some("翻译文本不能为空")) && delays == [] && keys == old(keys) && cache == old(cache)
      ensures Trim(text) != "" && GetCacheKey(text, options, config) in old(cache) ==>
        r == Done(old(cache)[GetCacheKey(text, options, config)]) && delays == [] && keys == old(keys) && cache == old(cache)
      ensures (Trim(text) != "" && GetCacheKey(text, options, config) !in old(cache) &&
               DetectLanguage(text) == ToLanguage(options, config)) ==>
        r == Done(Translation(text, text, DetectLanguage(text), FromLanguage(options, config), ToLanguage(options, config), false, None)) &&
        delays == [] && keys == old(keys) && cache == old(cache)
      ensures (Trim(text) != "" && GetCacheKey(text, options, config) !in old(cache) &&
               DetectLanguage(text) != ToLanguage(options, config)) ==>
        r == ApiOutcome(config, retryCount, text, FromLanguage(options, config), ToLanguage(options, config), replies, now) &&
        delays == ApiDelays(config, retryCount, text, replies) &&
        (if r.Done? && CacheEnabled(config)
         then Stored(old(keys), old(cache), GetCacheKey(text, options, config), r.translation, keys, cache)
         else keys == old(keys) && cache == old(cache))
    {
      // `!text || !text.trim()`: the empty text trims to empty as well.
      if Trim(text) == "" {
        return Threw(Some("翻译文本不能为空")), [];
      }
      var key := GetCacheKey(text, options, config);
      if key in cache {
        return Done(cache[key]), [];
      }
      var detected := DetectLanguage(text);
      var fromLang := FromLanguage(options, config);
      var toLang := ToLanguage(options, config);
      if detected == toLang {
        return Done(Translation(text, text, detected, fromLang, toLang, false, None)), [];
      }
      r, delays := CallTranslationAPI(text, fromLang, toLang, replies, now);
      if r.Done? && CacheEnabled(config) {
        CacheStore(key, r.translation);
      }
    }
  }
}
