# Voice translator extension: a verified model of its core

This project models the logic of a browser extension in Dafny. The extension
listens to speech on a page, translates the recognised text with the Baidu
translation API, and shows it as a subtitle. Its centre is the MD5 digest
that signs every API request. The content script has its own MD5
(`src/content.js`). The test script `test-plugin.js` carries a second,
divergent copy of it and the repository's known answers for it.

The project models three things:

- The content script's MD5, exactly as written, on UTF-16 code units and
  32-bit words (`ContentMd5`). A reference definition of RFC 1321
  (`Rfc1321`, with known answers in `Md5Vectors`, including the empty
  message of appendix A.5) is proved equal to it on the inputs where the
  code is faithful (`ContentMd5Rfc`). Known
  answers cover the empty string, "hello" and "world", plus two inputs where
  it is not faithful (`ContentMd5Vectors`).
- The content script's on/off switch, its messages and its request
  signature (`ContentScript`).
- The variant MD5 of `test-plugin.js`, its signing helper and its two tests
  (`TestPluginMd5`, `TestPluginVectors`). The model shows the three places
  where the variant departs from RFC 1321, and that the variant's own tests
  fail.

It also models the helper classes under `src/utils/`:

- the configuration deep merge and validator (`Config`);
- the translation service (`Translator`): its language detector, cache key,
  error table, bounded insertion-ordered cache, retry loop with capped
  back-off, and the unused 32-bit adder;
- the error handler (`ErrorHandling`): its bounded log, severity classifier,
  notification rule, recovery suggestions and statistics;
- the permission manager (`Permissions`): its three flags, listener registry
  and user-agent classification;
- the speech recognizer wrapper (`Speech`): its configuration, language map,
  transcript split, error table and restart rule, start/stop flags and
  callback routing.

`JsValue` and `JsString` hold the handful of JavaScript semantics these use:
JSON-like values, `undefined` as an absent Option, truthiness, `{...v}`,
`String.prototype.trim`, `includes`, a character-class test and
capitalisation.

Modelling conventions:

- Strings the code hashes are sequences of UTF-16 code units (`bv16`).
- The content script's encoder writes each code unit as 1, 2 or 3 bytes.
  That is UTF-8 on text within the Basic Multilingual Plane (BMP). A
  character beyond it comes out as the two three-byte forms of its
  surrogates (CESU-8), not as UTF-8's four bytes.
- Words are `bv32`. JavaScript's signed 32-bit results are the same bit
  patterns.
- Holes in a JavaScript array read as 0 wherever the code ORs them or
  passes them to `|`.
- A method that changes an object is a method of a class with those fields.
  A loop in the source is a loop in the model, proved against a
  specification function.
- Every call into the browser is left out or made a parameter. This covers
  the network, speech recognition, permission queries, timers,
  `Date.now()` and `Math.random()`. The reply to retry attempt k is
  `replies(k)`, and the result of each permission check is an input of
  `CheckAllPermissions`. A clock reading is an `int` parameter, and a
  listener id is a caller-supplied `real`.

## Model

| member | source | states |
|---|---|---|
| ContentMd5.RotateLeft | src/content.js:204-206 | `(v << s) \| (v >>> (32 - s))` is the 32-bit left rotation for every shift 1..31 used |
| ContentMd5.ShiftCountsMasked | src/content.js:204-206 | JavaScript's shift counts taken mod 32 give the same word as the plain shifts for 0 < s < 32 |
| ContentMd5.AddUnsigned | src/content.js:208-212 | the 16-bit-halves adder equals addition mod 2^32 |
| ContentMd5.Md5cmn | src/content.js:214-216 | md5cmn is the RFC 1321 step `b + ((a + q + x + t) <<< s)` |
| ContentMd5.Md5ff | src/content.js:218-220 | md5ff is a step with the auxiliary function F of RFC 1321 section 3.4 |
| ContentMd5.Md5gg | src/content.js:222-224 | md5gg is a step with G |
| ContentMd5.Md5hh | src/content.js:226-228 | md5hh is a step with H |
| ContentMd5.Md5ii | src/content.js:230-232 | md5ii is a step with I |
| ContentMd5.Store | src/content.js:235-236 | an array write past the end extends it; the written index reads the value, every other index is unchanged |
| ContentMd5.Block | src/content.js:249-315 | `x[i + k]` for k < 16 is the 16-word block at i, holes reading 0 |
| ContentMd5.Blocks | src/content.js:243 | the loop `i += 16` while `i < x.length` visits whole 16-word blocks covering every word of x |
| ContentMd5.HashFromBlocks | src/content.js:243-321 | hashing from word i onward is RFC 1321's HashBlocks over the remaining blocks |
| ContentMd5.InitialRegisters | src/content.js:238-241 | the signed decimal registers are A, B, C, D of RFC 1321 section 3.3 |
| ContentMd5.Round1 | src/content.js:249-264 | the 16 md5ff lines are round 1 of RFC 1321 on the block (words, shifts, constants) |
| ContentMd5.Round2 | src/content.js:266-281 | the 16 md5gg lines are round 2 |
| ContentMd5.Round3 | src/content.js:283-298 | the 16 md5hh lines are round 3 |
| ContentMd5.Round4 | src/content.js:300-315 | the 16 md5ii lines are round 4 |
| ContentMd5.CompressBlock | src/content.js:244-320 | one loop body is RFC 1321's compression of the block, the pre-block registers added back |
| ContentMd5.CoreMd5 | src/content.js:234-322 | coreMD5 writes the marker and the length into x and returns the four registers of the block loop |
| ContentMd5.ReplaceCrlf | src/content.js:326 | replacing `\r\n` by `\n` never lengthens the text |
| ContentMd5.ReplaceCrlfUnchanged | src/content.js:326 | the replacement changes the text iff it holds a CR LF, and then shortens it |
| ContentMd5.EncodeUnitCases | src/content.js:330-339 | each code unit's bytes are those the three branches write |
| ContentMd5.EncodeUnitForm | src/content.js:330-339 | a unit gives 1, 2 or 3 bytes for < 0x80, < 0x800 or above, each <= 0xFF, with the RFC 3629 lead and continuation bit patterns |
| ContentMd5.Utf8Bytes | src/content.js:325-342 | every output unit of the encoder is at most 0xFF |
| ContentMd5.Utf8Encode | src/content.js:325-342 | the loop returns the per-unit encoding of the CR LF-collapsed text |
| ContentMd5.Utf8Append | src/content.js:328-340 | encoding distributes over concatenation |
| ContentMd5.AsciiEncoded | src/content.js:325-342 | ASCII text without CR LF encodes to itself |
| ContentMd5.AsciiUtf8 | src/content.js:330-331 | ASCII units encode to themselves |
| ContentMd5.DecodeUnit | src/content.js:330-339 | decoding the bytes of one unit followed by more bytes gives back the unit first |
| ContentMd5.SurrogatePair | src/content.js:330-339 | the surrogate pair D83D DE00 (U+1F600) is encoded as ED A0 BD ED B8 80, two three-byte forms, not UTF-8's F0 9F 98 80 |
| ContentMd5.Utf8RoundTrip | src/content.js:328-340 | the per-unit encoding is decoded back to its input: no two texts share an encoding |
| ContentMd5.Packed | src/content.js:344-354 | packing yields ceil(n / 4) words |
| ContentMd5.ConvertToWordArray | src/content.js:344-354 | the loop returns Packed(text) |
| ContentMd5.PackedByte | src/content.js:348-351 | byte i sits in bits 8 (i mod 4) of word i / 4, little-endian, and is the low byte of unit i |
| ContentMd5.ToHexString | src/content.js:360 | `toString(16)` yields at least one digit |
| ContentMd5.TwoDigits | src/content.js:360 | `('0' + b.toString(16)).slice(-2)` is the two lowercase hex digits of the byte |
| ContentMd5.ShiftedByte | src/content.js:359 | `(v >>> 8k) & 255` is byte k of the word in RFC 1321 little-endian order |
| ContentMd5.WordToHex | src/content.js:356-363 | the loop renders the word's four little-endian bytes as hex |
| ContentMd5.DigestHex | src/content.js:367 | the joined rendering of four registers is 32 lowercase hex digits |
| ContentMd5.Hexed | src/content.js:367 | `result.map(wordToHex).join('')` is DigestHex of the registers |
| ContentMd5.Md5 | src/content.js:365-367 | md5 as written (length argument `string.length * 8`), always 32 characters of `0-9a-f` |
| ContentMd5.Md5Fixed | src/content.js:365-367 | the same pipeline with the encoded length, always 32 characters of `0-9a-f` |
| ContentMd5Rfc.Bytes | src/content.js:348-351 | the `& 0xFF` bytes of the units, one per unit |
| ContentMd5Rfc.PackedWord | src/content.js:348-351 | each packed word is RFC 1321's little-endian word of four message bytes |
| ContentMd5Rfc.Layout | src/content.js:235-236 | for n bytes, the marker goes in word n / 4 at shift 8 (n mod 4), and the length word is 16 (floor((n + 8) / 64) + 1) - 2 |
| ContentMd5Rfc.MarkerShift | src/content.js:235 | `0x80 << (len % 32)` is the byte 0x80 in the lane just after the data |
| ContentMd5Rfc.BlockCountAgrees | src/content.js:236-243 | the loop processes floor((n + 8) / 64) + 1 blocks for n bytes, as RFC 1321 pads |
| ContentMd5Rfc.WordsAgree | src/content.js:235-236 | every word of the marked array is the word of RFC 1321's padded message (sections 3.1-3.2) |
| ContentMd5Rfc.LengthWordsAgree | src/content.js:236 | the length word and the one after it are the 64-bit bit count of section 3.2 |
| ContentMd5Rfc.MarkerWordAgrees | src/content.js:235 | the word the marker is ORed into is the padded word holding the 0x80 byte |
| ContentMd5Rfc.DataWordAgrees | src/content.js:344-354 | the other words are the padded message's data and zero words |
| ContentMd5Rfc.BlocksArePadded | src/content.js:235-243 | the blocks hashed are exactly RFC 1321's padded message |
| ContentMd5Rfc.CoreIsRfc | src/content.js:234-322 | coreMD5 with the true bit length is RFC 1321's hash of the bytes |
| ContentMd5Rfc.Md5EncodedIsRfc | src/content.js:365-367 | md5 with the encoded length is RFC 1321 MD5 of the per-code-unit encoding's bytes (UTF-8 on BMP text) |
| ContentMd5Rfc.AsciiMd5IsRfc | src/content.js:365-367 | md5 as written is RFC 1321 MD5 for ASCII input without CR LF |
| ContentMd5Rfc.EncodedBytesExact | src/content.js:348-351 | `& 0xFF` loses nothing of the encoder's output |
| ContentMd5Vectors.EmptyAnswer | src/content.js:365-367 | md5("") is d41d8cd98f00b204e9800998ecf8427e, the answer of RFC 1321 appendix A.5 |
| ContentMd5Vectors.HelloAnswer | test-plugin.js:163 | md5("hello") of the content script is 5d41402abc4b2a76b9719d911017c592 |
| ContentMd5Vectors.WorldAnswer | test-plugin.js:164 | md5("world") of the content script is 7d793037a0760186574b0282f2f435e7 |
| ContentMd5Vectors.ZhongAsWritten | src/content.js:366 | md5("中") as written is 38ea1323be28b339a0875beb6c3d7054 |
| ContentMd5Vectors.ZhongFixed | src/content.js:365-367 | with the encoded length md5("中") is aed1dfbc31703955e64806b799b67645 |
| ContentMd5Vectors.ZhongDiffers | src/content.js:366 | for "中" the written md5 is not RFC 1321 MD5 of its UTF-8 bytes, and the corrected one is |
| ContentMd5Vectors.CrLfAsWritten | src/content.js:366 | md5("\r\n") as written is 9dd94c5a4b02914af42e8e6372e0b709 |
| ContentMd5Vectors.CrLfFixed | src/content.js:365-367 | with the encoded length md5("\r\n") is 68b329da9893e34099c7d8ad5cb9c940, MD5 of "\n" |
| ContentMd5Vectors.CrLfDiffers | src/content.js:366 | for "\r\n" the written md5 is not RFC 1321 MD5 of the collapsed text, and the corrected one is |
| Md5Vectors.HelloDigest | test-plugin.js:163 | the expected value for "hello" is RFC 1321 MD5 of its bytes |
| Md5Vectors.WorldDigest | test-plugin.js:164 | the expected value for "world" is RFC 1321 MD5 of its bytes |
| ContentScript.Reply | src/content.js:419-431 | success is true iff the action is one of the two known ones; the three reply shapes, with `未知操作` for the rest |
| ContentScript.VoiceTranslator.constructor | src/content.js:4-8 | inactive, with an empty configuration object |
| ContentScript.VoiceTranslator.ToggleDisplay | src/content.js:397-412 | the state flips; recognition starts when it turns on and stops when it turns off |
| ContentScript.VoiceTranslator.HandleMessage | src/content.js:415-432 | TOGGLE_TRANSLATOR flips `isActive` and replies with the new value; UPDATE_CONFIG replaces `config`; anything else replies failure and changes nothing |
| ContentScript.VoiceTranslator.GenerateSign | src/content.js:196-200 | the sign is md5 as written of appid + query + salt + key, 32 lowercase hex digits; it is RFC 1321 MD5 of the text when that is ASCII without CR LF, and the corrected md5 whenever the encoding keeps the length |
| TestPluginMd5.ConvertToWordArray | test-plugin.js:37-45 | the loop keeps only each unit's low byte, packs little-endian and returns sigBytes = the string's length |
| TestPluginMd5.PackedPrefix | test-plugin.js:40-43 | one iteration ORs byte i into lane i mod 4 of word i / 4 of the packing so far |
| TestPluginMd5.PaddingWrites | test-plugin.js:61-62 | the two writes produce the variant's marked array |
| TestPluginMd5.MarkerLane | test-plugin.js:41-61 | the marker's shift 24 - 8 (n mod 4) never equals the data shift 8 (n mod 4), so the marker is neither RFC 1321's 0x80 byte nor the content script's marker |
| TestPluginMd5.LengthSlot | test-plugin.js:62 | the length goes in word 16k - 1 of the k blocks, one past the word 16k - 2 of src/content.js:236 and RFC 1321 section 3.2 |
| TestPluginMd5.BlockRound1 | test-plugin.js:75-90 | the hexadecimal constants give round 1 of RFC 1321, the same round as the decimal ones of src/content.js |
| TestPluginMd5.BlockRound2 | test-plugin.js:92-107 | the same for round 2 |
| TestPluginMd5.BlockRound3 | test-plugin.js:109-124 | the same for round 3 |
| TestPluginMd5.BlockRound4 | test-plugin.js:126-141 | the same for round 4 |
| TestPluginMd5.HashBlock | test-plugin.js:69-147 | one loop body is RFC 1321's compression of the block |
| TestPluginMd5.BiteAt | test-plugin.js:51 | the byte read from lane r is byte 3 - r of the word in RFC 1321 order |
| TestPluginMd5.BiteDigits | test-plugin.js:52 | the two `hexChars.charAt` digits are the lowercase hex of the byte |
| TestPluginMd5.WordArrayToHex | test-plugin.js:47-55 | the loop renders the first sigBytes big-endian bytes of the words as hex |
| TestPluginMd5.BigEndianByteAt | test-plugin.js:51 | output byte i is byte 3 - i mod 4 of word i / 4 |
| TestPluginMd5.BigEndianOutput | test-plugin.js:51 | byte m of register j is emitted at 4j + 3 - m, the reverse of src/content.js:359 |
| TestPluginMd5.VariantMd5 | test-plugin.js:149-150 | the variant's digest is 32 characters of `0-9a-f` |
| TestPluginMd5.Md5 | test-plugin.js:6-151 | md5 packs, writes the marker and length in place, hashes every block and renders a, b, c, d: the variant digest of 32 lowercase hex digits |
| TestPluginMd5.SignInput | test-plugin.js:155 | the signed string is appId, query, salt, appKey in that order, despite the parameter order |
| TestPluginMd5.GenerateSign | test-plugin.js:154-157 | the sign is the variant md5 of appId + query + salt + appKey, 32 lowercase hex digits |
| TestPluginVectors.HelloVariant | test-plugin.js:6-151 | the variant gives 46ab8369c23922870e79235105cc0726 for "hello" |
| TestPluginVectors.WorldVariant | test-plugin.js:6-151 | the variant gives 03bc33a31461a01fa06819e4e43fdbf3 for "world" |
| TestPluginVectors.HelloExpectation | test-plugin.js:163 | the expected "hello" digest is the content script's md5 and not the variant's |
| TestPluginVectors.WorldExpectation | test-plugin.js:164 | the same for "world" |
| TestPluginVectors.Md5CasesExpectations | test-plugin.js:162-165 | every expected value of the table is the content script's md5 of its input, and none is the variant's |
| TestPluginVectors.TestMd5 | test-plugin.js:160-176 | testMD5 with the variant md5 reports failure |
| TestPluginVectors.TestApiSignature | test-plugin.js:179-186 | the test signature is non-empty, 32 characters and matches `/^[a-f0-9]+$/` |
| Config.MergeConfig | src/utils/config.js:123-137 | the keys are those of d and of u; d's value stays where u has none; a non-object value of u replaces; an object of u yields an object |
| Config.MergeOverrides | src/utils/config.js:124-134 | recursively, every value of u is found in the merge: objects merged, others as given |
| Config.MergeKeeps | src/utils/config.js:123-137 | recursively, every value of d whose path u does not give is found in the merge: keys u lacks keep d's value, objects of both are merged again |
| Config.MergeEmpty | src/utils/config.js:124 | merging an empty object gives back a copy of d |
| Config.MergeIdempotent | src/utils/config.js:123-137 | merging an object into itself changes nothing |
| Config.MergeAgain | src/utils/config.js:123-137 | merging the same user object twice is merging it once |
| Config.FailedChecks | src/utils/config.js:84-114 | exactly the checks the configuration fails |
| Config.Failing | src/utils/config.js:84-114 | the failed checks from position k on, in the fixed order |
| Config.Failures | src/utils/config.js:84-114 | the failed checks, each once, in the order appid, key, from, to, fontSize, hideDelay |
| Config.ValidateConfig | src/utils/config.js:82-119 | isValid iff the error list is empty iff no check fails; the errors are the failed checks' messages in order |
| Config.MessagesDistinct | src/utils/config.js:87-113 | different checks push different messages |
| Config.LanguagePasses | src/utils/config.js:96-104 | the default languages auto and zh pass |
| Config.UiPasses | src/utils/config.js:107-114 | the default font size 16 and hide delay 5000 pass |
| Config.ValidateDefaultConfig | src/utils/config.js:87-93 | validating the defaults yields exactly the appid and key errors, in that order |
| Config.MergedKeys | src/utils/config.js:123-137 | merging a user appid and key into the defaults keeps the default language and UI |
| Config.KeysPass | src/utils/config.js:87-93 | a non-empty string appid and key raise no error |
| Config.ValidateAllPass | src/utils/config.js:116-119 | no failed check means valid |
| Config.ValidateWithKeys | src/utils/config.js:82-137 | the defaults merged with a non-empty appid and key are valid |
| Translator.Detect | src/utils/translator.js:185-213 | the script returned is one the text shows, and no script tested earlier is shown |
| Translator.DetectLanguage | src/utils/translator.js:185-213 | the code is zh iff the text shows Han; ja iff it shows kana and no Han; ko, ru and ara likewise, each iff its script shows and no earlier one does; en iff none shows |
| Translator.CacheKeyShape | src/utils/translator.js:216-220 | the key starts with the source language and a dash, and ends with a dash and the trimmed text |
| Translator.DetectConcat | src/utils/translator.js:185-213 | a joined text is detected as whichever of the two parts' scripts is tested first |
| Translator.Either | src/utils/translator.js:32-33 | `first \|\| second \|\| dflt` on strings |
| Translator.CacheKeyOuterSpace | src/utils/translator.js:216-220 | texts that differ only in outer white space share a cache key |
| Translator.CacheKeyDefaults | src/utils/translator.js:216-220 | with no options and no configured languages the key is `auto-zh-` and the trimmed text |
| Translator.GetErrorMessage | src/utils/translator.js:223-240 | the table entry for a known code, else error_msg, else `未知错误 (code)`; never empty |
| Translator.AddUnsigned | src/utils/translator.js:160-178 | the bit-30/bit-31 adder equals addition mod 2^32 |
| Translator.BothBit30 | src/utils/translator.js:165-168 | the branch for both operands holding bit 30 gives the sum |
| Translator.OneBit30 | src/utils/translator.js:169-174 | the branch for one operand holding bit 30 gives the sum |
| Translator.NoBit30 | src/utils/translator.js:175-177 | the last branch gives the sum |
| Translator.AttemptOutcome | src/utils/translator.js:93-129 | an attempt returns a translation iff the response is ok, has no error code and has a result; an HTTP failure and an error code throw their messages |
| Translator.BackoffDelay | src/utils/translator.js:136 | the delay is never above 5000 ms |
| Translator.BackoffSchedule | src/utils/translator.js:136 | the delays are 1000, 2000 and 4000 ms, then 5000 |
| Translator.BackoffDoubles | src/utils/translator.js:136 | each delay doubles the previous one, up to the cap |
| Translator.FirstSuccess | src/utils/translator.js:91-141 | the first successful attempt, all before it failing |
| Translator.Attempts | src/utils/translator.js:91 | the loop's attempt count is 0 or the largest whole number not above retryCount |
| Translator.AttemptBound | src/utils/translator.js:91 | for every attempt a >= 1, `a <= retryCount` iff a is within Attempts(retryCount) |
| Translator.RetryFractional | src/utils/translator.js:134 | with retryCount 2.5 both failed attempts back off (1000, 2000 ms); with 2 only the first does |
| Translator.RetryOutcome | src/utils/translator.js:91-143 | the call settles to a translation iff some attempt within retryCount succeeds |
| Translator.RetrySucceeds | src/utils/translator.js:91-143 | the first success at attempt j is returned after the j - 1 back-offs before it |
| Translator.RetryExhausted | src/utils/translator.js:131-143 | when every attempt fails, the last attempt's error is rethrown after ⌊retryCount⌋ - 1 back-offs, or ⌊retryCount⌋ when retryCount is fractional |
| Translator.ApiOutcome | src/utils/translator.js:69-77 | without appid and key the call throws `请先配置百度翻译API密钥`; with them, a signed text (appid, query or key) with a code unit above 0xFF throws `btoa`'s InvalidCharacterError before any attempt; otherwise the retry loop decides |
| Translator.ApiDelays | src/utils/translator.js:69-77 | nothing is slept unless the call is credentialed and `btoa` accepts its signed text; then the retry loop's back-offs |
| Translator.DetectedRejected | src/utils/translator.js:181 | every text detected as Chinese, Japanese, Korean, Russian or Arabic holds a character above 0xFF, so with credentials its call throws InvalidCharacterError with no sleep |
| Translator.KanaRejected | src/utils/translator.js:76-77 | translating こんにちは throws InvalidCharacterError from the signature |
| Translator.RetryCount | src/utils/translator.js:9 | a falsy `retryCount` means 3; a number, fractional ones included, is the bound as given; `true` is 1; any other value allows no attempt |
| Translator.TranslationService.constructor | src/utils/translator.js:4-11 | the configuration as given, an empty cache and `retryCount \|\| 3` |
| Translator.TranslationService.UpdateConfig | src/utils/translator.js:14-16 | the configuration becomes the old one overridden key by key |
| Translator.TranslationService.CacheStore | src/utils/translator.js:52-57 | the entry is stored; a new key goes last; past 1000 entries exactly the oldest key is dropped |
| Translator.TranslationService.CallTranslationAPI | src/utils/translator.js:69-144 | missing credentials and text `btoa` refuses throw before any attempt; otherwise the retry loop settles to ApiOutcome after sleeping ApiDelays |
| Translator.TranslationService.Translate | src/utils/translator.js:19-65 | blank text throws before the cache is read; a cached key answers from the cache; text already in the target language comes back uncached; otherwise the API result (a throw from the credential check or the signature included) is settled as ApiOutcome and cached only when it is a translation and `cacheEnabled !== false` |
| ErrorHandling.NormalizeError | src/utils/error-handler.js:86-118 | a string becomes a `custom` warning; an Error becomes a `javascript` error with its message |
| ErrorHandling.NormalizePlain | src/utils/error-handler.js:107-117 | for a plain object each field present in it overrides the default |
| ErrorHandling.GetErrorSeverity | src/utils/error-handler.js:121-143 | critical iff a critical keyword occurs; warning iff no critical one does and a warning one does; earlier rules win |
| ErrorHandling.SeverityMonotone | src/utils/error-handler.js:121-143 | extending a message never lowers its severity |
| ErrorHandling.NoticeFor | src/utils/error-handler.js:71-77 | a notification is shown only for critical (8000 ms) or warning (5000 ms) |
| ErrorHandling.GetRecoverySuggestion | src/utils/error-handler.js:307-317 | the entry for the five known types, else `请刷新页面重试` |
| ErrorHandling.Logged | src/utils/error-handler.js:146-156 | the new entry is last, the log stays within 100, and on overflow only the oldest entry is dropped |
| ErrorHandling.LoggedAll | src/utils/error-handler.js:146-156 | after any sequence of errors the log is the last 100 of them |
| ErrorHandling.Counts | src/utils/error-handler.js:328-331 | the counter of a value is its number of occurrences |
| ErrorHandling.CountsSum | src/utils/error-handler.js:328-331 | the counters add up to the number of entries |
| ErrorHandling.ErrorHandler.constructor | src/utils/error-handler.js:4-9 | an empty log |
| ErrorHandling.ErrorHandler.LogError | src/utils/error-handler.js:146-156 | the log becomes Logged(old log, e) |
| ErrorHandling.ErrorHandler.HandleError | src/utils/error-handler.js:64-84 | the error is normalised, logged, and notified according to its severity |
| ErrorHandling.ErrorHandler.GetErrorStats | src/utils/error-handler.js:320-334 | total is the log length, the counters are per type and per severity, recent is the last 10 or fewer entries |
| ErrorHandling.ErrorHandler.ClearErrorLog | src/utils/error-handler.js:337-339 | the log is empty |
| ErrorHandling.StatsAddUp | src/utils/error-handler.js:320-334 | the per-type and the per-severity counts each sum to total |
| Permissions.Initial | src/utils/permissions.js:5-9 | microphone and tabCapture false, storage true |
| Permissions.HasPermission | src/utils/permissions.js:195-198 | true iff the flag is exactly true |
| Permissions.HasAllRequiredPermissions | src/utils/permissions.js:200-202 | microphone and storage, ignoring tabCapture |
| Permissions.MissingOf | src/utils/permissions.js:205-215 | a name is missing iff its flag is false, in key order |
| Permissions.MissingIffNotPermitted | src/utils/permissions.js:195-215 | a permission is missing iff it is not granted |
| Permissions.Settle | src/utils/permissions.js:29-34 | a fulfilled check overwrites the flag; a rejected one keeps it |
| Permissions.Register | src/utils/permissions.js:290-294 | the id is registered; a fresh id is appended; other ids stay free; ids stay distinct |
| Permissions.Unregister | src/utils/permissions.js:297-299 | removing an id keeps exactly the other listeners, and the id is then free |
| Permissions.UnregisterOthers | src/utils/permissions.js:297-299 | removing an unregistered id changes nothing |
| Permissions.RegisterThenRemove | src/utils/permissions.js:290-299 | registering then removing an id leaves the others as they were |
| Permissions.LeadingDigits | src/utils/permissions.js:403-416 | `\d+` after a marker: the longest run of digits at the front |
| Permissions.FirstMatch | src/utils/permissions.js:403-416 | the digits after the first occurrence of the marker, none iff it does not occur |
| Permissions.GetBrowserInfo | src/utils/permissions.js:396-420 | Chrome before Firefox, Safari and Edge, else Unknown; version is the digits after the marker, else `Unknown` |
| Permissions.ChromeFirst | src/utils/permissions.js:401-402 | any user agent containing "Chrome" is Chrome |
| Permissions.PermissionManager.constructor | src/utils/permissions.js:4-11 | the initial flags and no listeners |
| Permissions.PermissionManager.CheckAllPermissions | src/utils/permissions.js:22-38 | each flag is settled by its check's result, and every listener is notified |
| Permissions.PermissionManager.GetMissingPermissions | src/utils/permissions.js:205-215 | the loop returns MissingOf(flags) |
| Permissions.PermissionManager.ResetPermissions | src/utils/permissions.js:347-354 | all three flags false, listeners notified |
| Permissions.ResetAllMissing | src/utils/permissions.js:347-354 | after a reset every permission is missing |
| Permissions.PermissionManager.OnPermissionChange | src/utils/permissions.js:290-294 | the listener is registered under the id, which is returned |
| Permissions.PermissionManager.RemovePermissionChangeListener | src/utils/permissions.js:297-299 | the listeners become Unregister(old, id) |
| Permissions.PermissionManager.NotifyPermissionChange | src/utils/permissions.js:302-317 | every listener's callback is invoked, in order |
| Speech.Settings | src/utils/speech.js:5-11 | the defaults overridden key by key by the caller's config |
| Speech.RecognitionLanguage | src/utils/speech.js:240-258 | the mapped code for the 9 known keys, else the raw lang if truthy, else `en-US`; always truthy |
| Speech.RecognitionLanguageIdempotent | src/utils/speech.js:240-258 | applying the mapping to its own result changes nothing |
| Speech.WindowStep | src/utils/speech.js:134-144 | one more result adds its transcript to the final or the interim text and may raise the maximum confidence |
| Speech.MaxConfidence | src/utils/speech.js:137 | at least the start value and every result's confidence, and equal to one of them |
| Speech.TranscriptsConcat | src/utils/speech.js:134-144 | the split distributes over concatenation of results |
| Speech.FinalsEmpty | src/utils/speech.js:134-144 | the final text is empty iff every final transcript is empty |
| Speech.InterimsEmpty | src/utils/speech.js:134-144 | the interim text is empty iff every interim transcript is empty |
| Speech.ReadResults | src/utils/speech.js:129-144 | the loop from resultIndex returns the concatenated final and interim transcripts and the maximum confidence |
| Speech.BlankFinal | src/utils/speech.js:149-152 | a final " " reports isFinal true with an empty trimmed text |
| Speech.ErrorMessage | src/utils/speech.js:165-175 | the table entry, else `未知错误: <code>` |
| Speech.RestartCodesKnown | src/utils/speech.js:165-186 | both restart codes are in the error table |
| Speech.GetPermissionErrorMessage | src/utils/speech.js:347-358 | the entry for the six error names, else `未知的麦克风权限错误` |
| Speech.NoCallbacks | src/utils/speech.js:16-23 | the six handler keys, all null |
| Speech.HandlerIff | src/utils/speech.js:261-266 | `'on' + Capitalized(name)` is a handler key iff the lower-first name is one of the six events |
| Speech.Route | src/utils/speech.js:261-266 | the callback is stored only under its handler key when that key exists; other keys are unchanged |
| Speech.RouteAll | src/utils/speech.js:268-274 | routing a list keeps the key set |
| Speech.RouteAllUntouched | src/utils/speech.js:268-274 | a handler no entry names keeps its callback |
| Speech.RouteAllLast | src/utils/speech.js:268-274 | the last entry naming a handler wins |
| Speech.SpeechRecognizer.constructor | src/utils/speech.js:4-28 | merged config, no recogniser, not listening, null callbacks |
| Speech.SpeechRecognizer.Init | src/utils/speech.js:36-57 | throws when unsupported and changes nothing; otherwise creates the recogniser and sets its language |
| Speech.SpeechRecognizer.SetLanguage | src/utils/speech.js:240-258 | with a recogniser, the recognition language is mapped and `config.lang` stores the unmapped input |
| Speech.SpeechRecognizer.HandleResult | src/utils/speech.js:128-161 | the result event carries the trimmed final and interim texts, isFinal from the untrimmed final text, and is raised iff onResult is set |
| Speech.SpeechRecognizer.HandleError | src/utils/speech.js:164-193 | the message is the table's; a restart is scheduled iff the code is no-speech or audio-capture and continuous is truthy |
| Speech.SpeechRecognizer.Start | src/utils/speech.js:196-217 | throws when unsupported; does nothing more when listening; otherwise sets shouldRestart |
| Speech.SpeechRecognizer.Stop | src/utils/speech.js:220-227 | shouldRestart becomes false; the recogniser is stopped iff it exists and is listening |
| Speech.SpeechRecognizer.Abort | src/utils/speech.js:230-237 | shouldRestart becomes false; the recogniser is aborted iff it exists |
| Speech.SpeechRecognizer.OnStart | src/utils/speech.js:63-67 | listening; onStart called iff set |
| Speech.SpeechRecognizer.OnEnd | src/utils/speech.js:81-94 | not listening; onEnd called iff set; a restart is scheduled iff continuous and shouldRestart |
| Speech.SpeechRecognizer.RestartFires | src/utils/speech.js:87-91 | the scheduled restart starts again only when shouldRestart still holds: it throws when unsupported, otherwise creates a missing recogniser with the mapped language and listens unless already listening; config, callbacks and the other fields keep their values |
| Speech.SpeechRecognizer.SetCallback | src/utils/speech.js:261-266 | callbacks become Route(old, event, cb) |
| Speech.SpeechRecognizer.SetCallbacks | src/utils/speech.js:268-274 | the loop over the entries gives RouteAll(old, entries) |
| Speech.SpeechRecognizer.UpdateConfig | src/utils/speech.js:277-286 | the config is overridden key by key and, with a recogniser, its language re-applied |
| Speech.SpeechRecognizer.Destroy | src/utils/speech.js:361-366 | stops the recogniser iff it exists and is listening, drops it and empties callbacks; config, listening flag, language and the other fields keep their values |
| Speech.DestroyedRoutesNothing | src/utils/speech.js:361-366 | after destroy has emptied the callbacks, setCallback (lines 261-266) stores nothing |
| JsString.Trim | src/utils/translator.js:20 | the trimmed text is s with a white-space prefix and a white-space suffix removed, and starts and ends with a non-space character |
| JsString.TrimOuterSpace | src/utils/translator.js:219 | trimming ignores white space added around a text |

## Left out

- I/O and the browser: the DOM overlay and subtitles (`createOverlay`, `updateSubtitle`, `loadConfig`), chrome.runtime and chrome.storage, notifications, `console`, and the event wiring of the speech recogniser. The model returns what the code would ask of them: an Effect, a Notice, a list of callbacks or an event value.
- The network: `fetch`, its timeout and `AbortController`, and the sleeps are not modelled. Attempt k's reply is the parameter `replies(k)`, and the sleeps are returned as a list of delays.
- Time and randomness: `Date.now()` salts and timestamps, `Math.random()` listener ids, the 100 ms restart timer and the silence timer (src/utils/speech.js:289-304). Clock readings and ids are parameters.
- Permission queries (`checkMicrophonePermission`, `checkTabCapturePermission`, `checkStoragePermission`, `request*`) are foreign calls. Their settled results are the input of CheckAllPermissions. `getPermissionStatus`, `getPermissionGuide`, the periodic check and `destroy` of the permission manager are not modelled.
- Concurrency: `translateBatch` and the `await` gap between the cache lookup and the insert in `translate`.
- The value of the base64 `md5` of src/utils/translator.js:153-182 and of that file's `generateSign` is not modelled: only the InvalidCharacterError its `btoa` throws for a signed text with a code unit above 0xFF is, recorded by the exception's name because its message varies between browsers. Its `addUnsigned` helper is modelled. src/popup/popup.js's `md5` is not part of this model.
- `clearCache`, `getCacheStats`, `getSupportedLanguages` and the `timeout` option of the translation service; `getStatus`, `getSupportedLanguages` and `checkMicrophonePermission` of the speech recognizer; `handleNetworkError`, `handleApiError`, `handlePermissionError`, `handleConfigError`, `exportErrorLog` and `reportError` of the error handler; config.js's storage, export and import wrappers.
- Speech.SpeechRecognizer.Init: the copies of `continuous`, `interimResults` and `maxAlternatives` onto the browser recogniser are not modelled. Only its language is.
- ContentMd5.RotateLeft, ContentMd5.Md5cmn, ContentMd5.Md5ff, ContentMd5.Md5gg, ContentMd5.Md5hh and ContentMd5.Md5ii: rotation is stated for shifts 1..31, which covers the 4..23 the code uses. A shift of 0 or 32 is not.
- ContentMd5Rfc.Md5EncodedIsRfc, ContentMd5Rfc.AsciiMd5IsRfc and ContentMd5Rfc.CoreIsRfc: these are stated for texts below 2^28 bytes, below which the 32-bit bit length the code stores is exact. For longer texts the code keeps only the low 32 bits of the length and RFC 1321 keeps 64. The model computes that truncation but does not relate it to the RFC.
- The model computes `>>>` on non-negative lengths as `/` and `%` on naturals, and `>>` on the stored length as a signed 32-bit shift.
- ContentScript.VoiceTranslator.GenerateSign: the salt is taken as the text JavaScript makes of it, not as a number.
- ContentMd5Rfc.Md5EncodedIsRfc: the digest is RFC 1321 MD5 of the encoder's bytes. Outside the BMP these are not the UTF-8 bytes (ContentMd5.SurrogatePair), so there the corrected md5 is not MD5 of the UTF-8 text.
- TestPluginMd5: the helpers of test-plugin.js:7-35 are character for character those of src/content.js:204-232, so ContentMd5's are reused rather than written twice.
- JsString.Capitalized, Speech.Route, Speech.HandlerIff: `toUpperCase` is modelled for ASCII letters only. JavaScript upper-cases other letters too: "ſ" becomes "S", so `setCallback("ſtart")` sets onStart, which the model does not.
- JsString.Trim removes the ECMAScript white-space and line-terminator characters, listed explicitly.
- Translator.TranslationService.Translate: `!text` is folded into the trim check, because the empty text trims to empty. Non-string language options read as absent.
- Translator.RetryCount: a truthy `retryCount` that is neither a number nor a boolean, such as the numeral string `"5"` or a one-element array, is read as allowing no attempt. JavaScript converts it to a number and would run that many attempts.
- Translator.AttemptOutcome: a `trans_result[0]` without a `dst` field is not represented. The code then resolves with `translatedText` undefined.
- Config: NaN, string-to-number coercion in the range checks, and a configuration that is not an object are not modelled. Every value is a JSON-like value.
- Spread keys with an `undefined` value, and message-table lookups by inherited property names such as `constructor`, are not modelled. Tables are plain maps.
- ErrorHandling.NormalizeError: fields of the wrong type in a plain error object are not modelled.
- Floating point: confidences are reals. Font sizes and delays are reals compared exactly.

## Findings

| source | as written | input that shows it | evidently intended | confidence | as-written member | corrected member |
|---|---|---|---|---|---|---|
| src/content.js:366 | `coreMD5(x, string.length * 8)` gives the bit length of the UTF-16 text, not of the UTF-8 bytes hashed, so the marker and the length word land in the wrong place | "中" (one code unit, three bytes) hashes to 38ea1323be28b339a0875beb6c3d7054; "\r\n" (collapsed to one byte) hashes to 9dd94c5a4b02914af42e8e6372e0b709 | the bit length of the encoded text, which gives RFC 1321 MD5 of the encoded bytes (UTF-8 on BMP text): aed1dfbc31703955e64806b799b67645 and 68b329da9893e34099c7d8ad5cb9c940 | high; not executed | ContentMd5.Md5, ContentMd5Vectors.ZhongDiffers, ContentMd5Vectors.CrLfDiffers | ContentMd5.Md5Fixed, ContentMd5Rfc.Md5EncodedIsRfc, ContentMd5Vectors.ZhongFixed, ContentMd5Vectors.CrLfFixed |
| test-plugin.js:51, test-plugin.js:61-62 | the variant md5 writes the marker big-endian, stores the length in word 16k - 1, and reads the output big-endian, so it is not MD5 and testMD5 fails | "hello" gives 46ab8369c23922870e79235105cc0726, not the expected 5d41402abc4b2a76b9719d911017c592 | RFC 1321 MD5, as the test table of lines 162-165 expects | high; not executed | TestPluginMd5.Md5, TestPluginVectors.HelloExpectation, TestPluginVectors.TestMd5 | ContentMd5.Md5, ContentMd5Rfc.AsciiMd5IsRfc, TestPluginVectors.Md5CasesExpectations |
