/**
 * The speech recognizer wrapper of src/utils/speech.js: its configuration,
 * how a recognition event is split into final and interim text, how an
 * error code becomes a message and a restart, the start/stop flags, the
 * recognizer language, and the routing of callbacks by event name. The
 * browser's recognition object is foreign: the model keeps only whether it
 * exists and the language last given to it, and its events are the inputs
 * of the handler methods. Timestamps are inputs.
 */
module Speech {
  import opened JsValue
  import opened JsString

  /** A callback, by name; `null` is None. */
  type Callback = nat

  // ---------------------------------------------------------------------
  // Configuration and language (lines 5-11, 240-258).
  // ---------------------------------------------------------------------

  function DefaultSettings(): map<string, Json>
  {
    map["continuous" := Bool(true), "interimResults" := Bool(true),
        "lang" := Str("auto"), "maxAlternatives" := Num(1.0)]
  }

  /** `{...defaults, ...config}`: each key the caller gives wins, every
      other default stays. */
  function Settings(config: map<string, Json>): (r: map<string, Json>)
    ensures r.Keys == DefaultSettings().Keys + config.Keys
    ensures forall k :: k in config ==> r[k] == config[k]
    ensures forall k :: k in DefaultSettings() && k !in config ==> r[k] == DefaultSettings()[k]
  {
    DefaultSettings() + config
  }

  /** The recognizer codes of the language keys; 'auto' falls back to
      English. */
  const LanguageMap: map<string, string> := map[
    "auto" := "en-US", "zh" := "zh-CN", "en" := "en-US", "ja" := "ja-JP",
    "ko" := "ko-KR", "fr" := "fr-FR", "de" := "de-DE", "es" := "es-ES",
    "ru" := "ru-RU"]

  /** `languageMap[lang] || lang || 'en-US'`. */
  function RecognitionLanguage(lang: Json): (r: Json)
    ensures Truthy(Some(r))
    ensures lang.Str? && lang.s in LanguageMap ==> r == Str(LanguageMap[lang.s])
    ensures !(lang.Str? && lang.s in LanguageMap) && Truthy(Some(lang)) ==> r == lang
    ensures !(lang.Str? && lang.s in LanguageMap) && !Truthy(Some(lang)) ==> r == Str("en-US")
  {
    if lang.Str? && lang.s in LanguageMap then Str(LanguageMap[lang.s])
    else if Truthy(Some(lang)) then lang
    else Str("en-US")
  }

  /** No recognizer code is itself a language key, so mapping again
      changes nothing. */
  lemma RecognitionLanguageIdempotent(lang: Json)
    ensures RecognitionLanguage(RecognitionLanguage(lang)) == RecognitionLanguage(lang)
  {
    var r := RecognitionLanguage(lang);
    if lang.Str? && lang.s in LanguageMap {
      assert r.s !in LanguageMap;
    }
  }

  // ---------------------------------------------------------------------
  // Results (lines 128-161).
  // ---------------------------------------------------------------------

  /** The first alternative of one result of a recognition event. */
  datatype Alternative = Alternative(transcript: string, confidence: real, isFinal: bool)

  /** The results from `resultIndex` on: an index past the end reads
      none. */
  function Window(results: seq<Alternative>, lo: nat, hi: nat): (w: seq<Alternative>)
    ensures lo <= hi <= |results| ==> w == results[lo..hi]
  {
    if lo <= hi <= |results| then results[lo..hi] else []
  }

  /** One more result read by the loop of handleResult. */
  lemma WindowStep(results: seq<Alternative>, lo: nat, i: nat)
    requires lo <= i < |results|
    ensures var w, w' := Window(results, lo, i), Window(results, lo, i + 1);
      Finals(w') == Finals(w) + (if results[i].isFinal then results[i].transcript else "") &&
      Interims(w') == Interims(w) + (if results[i].isFinal then "" else results[i].transcript) &&
      MaxConfidence(w', 0.0) == Max(MaxConfidence(w, 0.0), results[i].confidence)
  {
    var w, w' := Window(results, lo, i), Window(results, lo, i + 1);
    assert w'[..|w'| - 1] == w && w'[|w'| - 1] == results[i];
  }

  /** The final transcripts, in order. */
  function Finals(s: seq<Alternative>): string
  {
    if s == [] then ""
    else Finals(s[..|s| - 1]) + (if s[|s| - 1].isFinal then s[|s| - 1].transcript else "")
  }

  /** The interim transcripts, in order. */
  function Interims(s: seq<Alternative>): string
  {
    if s == [] then ""
    else Interims(s[..|s| - 1]) + (if s[|s| - 1].isFinal then "" else s[|s| - 1].transcript)
  }

  function Max(a: real, b: real): real
  {
    if a >= b then a else b
  }

  /** `Math.max(confidence, c || 0)` over the results. */
  function MaxConfidence(s: seq<Alternative>, c: real): (r: real)
    ensures r >= c && forall i :: 0 <= i < |s| ==> r >= s[i].confidence
    ensures r == c || exists i :: 0 <= i < |s| && r == s[i].confidence
  {
    if s == [] then c
    else
      var m := MaxConfidence(s[..|s| - 1], c);
      assert forall i :: 0 <= i < |s| - 1 ==> s[..|s| - 1][i] == s[i];
      Max(m, s[|s| - 1].confidence)
  }

  /** Splitting the results splits both transcripts the same way. */
  lemma {:induction false} TranscriptsConcat(a: seq<Alternative>, b: seq<Alternative>)
    ensures Finals(a + b) == Finals(a) + Finals(b)
    ensures Interims(a + b) == Interims(a) + Interims(b)
  {
    if b != [] {
      assert (a + b)[..|a + b| - 1] == a + b[..|b| - 1];
      TranscriptsConcat(a, b[..|b| - 1]);
    } else {
      assert a + b == a;
    }
  }

  /** The final text is empty exactly when every final result has an empty
      transcript. */
  lemma {:induction false} FinalsEmpty(s: seq<Alternative>)
    ensures Finals(s) == "" <==> forall i :: 0 <= i < |s| && s[i].isFinal ==> s[i].transcript == ""
  {
    if s != [] {
      var p, last := s[..|s| - 1], s[|s| - 1];
      FinalsEmpty(p);
      assert forall i :: 0 <= i < |p| ==> p[i] == s[i];
      assert (Finals(s) == "") == (Finals(p) == "" && (last.isFinal ==> last.transcript == ""));
    }
  }

  /** The interim text is empty exactly when every interim result has an
      empty transcript. */
  lemma {:induction false} InterimsEmpty(s: seq<Alternative>)
    ensures Interims(s) == "" <==> forall i :: 0 <= i < |s| && !s[i].isFinal ==> s[i].transcript == ""
  {
    if s != [] {
      var p, last := s[..|s| - 1], s[|s| - 1];
      InterimsEmpty(p);
      assert forall i :: 0 <= i < |p| ==> p[i] == s[i];
      assert (Interims(s) == "") == (Interims(p) == "" && (!last.isFinal ==> last.transcript == ""));
    }
  }

  /** The loop of handleResult: the results from `resultIndex` on, each
      transcript appended to the final or the interim text. */
  method ReadResults(results: seq<Alternative>, resultIndex: nat)
    returns (finalTranscript: string, interimTranscript: string, confidence: real)
    ensures var w := Window(results, resultIndex, |results|);
      finalTranscript == Finals(w) && interimTranscript == Interims(w) &&
      confidence == MaxConfidence(w, 0.0)
  {
    finalTranscript, interimTranscript, confidence := "", "", 0.0;
    var i := resultIndex;
    while i < |results|
      invariant resultIndex <= i && (i <= |results| || i == resultIndex)
      invariant finalTranscript == Finals(Window(results, resultIndex, i))
      invariant interimTranscript == Interims(Window(results, resultIndex, i))
      invariant confidence == MaxConfidence(Window(results, resultIndex, i), 0.0)
    {
      var result := results[i];
      WindowStep(results, resultIndex, i);
      confidence := Max(confidence, result.confidence);
      if result.isFinal {
        finalTranscript := finalTranscript + result.transcript;
      } else {
        interimTranscript := interimTranscript + result.transcript;
      }
      i := i + 1;
    }
    assert i == |results| || resultIndex > |results|;
  }

  /** What onResult receives. */
  datatype ResultEvent = ResultEvent(
    finalTranscript: string, interimTranscript: string, confidence: real,
    isFinal: bool, timestamp: int)

  /** A final result of blanks makes `isFinal` true while the final text
      passed on is empty: `isFinal` is taken before trimming. */
  lemma BlankFinal()
    ensures var s := [Alternative(" ", 0.5, true)];
      |Finals(s)| > 0 && Trim(Finals(s)) == ""
  {
    var s := [Alternative(" ", 0.5, true)];
    assert Finals(s) == " " by {
      assert s[..0] == [];
    }
    TrimStartOfSpaces(" ");
  }

  // ---------------------------------------------------------------------
  // Error messages (lines 164-193, 347-358).
  // ---------------------------------------------------------------------

  const RecognitionErrors: map<string, string> := map[
    "no-speech" := "没有检测到语音输入",
    "audio-capture" := "音频捕获失败",
    "not-allowed" := "麦克风权限被拒绝",
    "network" := "网络连接错误",
    "service-not-allowed" := "语音识别服务不可用",
    "bad-grammar" := "语法错误",
    "language-not-supported" := "不支持的语言"]

  const RestartCodes: seq<string> := ["no-speech", "audio-capture"]

  /** `errorMessages[code] || '未知错误: ' + code`. */
  function ErrorMessage(code: string): (m: string)
    ensures code in RecognitionErrors ==> m == RecognitionErrors[code]
    ensures code !in RecognitionErrors ==> m == "未知错误: " + code
    ensures m != ""
  {
    if code in RecognitionErrors && RecognitionErrors[code] != "" then RecognitionErrors[code]
    else "未知错误: " + code
  }

  /** Every code that schedules a restart has its own message. */
  lemma RestartCodesKnown()
    ensures forall c :: c in RestartCodes ==> c in RecognitionErrors
  {
  }

  /** What onError receives. */
  datatype ErrorEvent = ErrorEvent(error: string, message: string, timestamp: int)

  const PermissionErrors: map<string, string> := map[
    "NotAllowedError" := "麦克风权限被拒绝，请在浏览器设置中允许访问麦克风",
    "NotFoundError" := "未找到麦克风设备",
    "NotReadableError" := "麦克风被其他应用占用",
    "OverconstrainedError" := "麦克风不满足要求的约束条件",
    "SecurityError" := "安全错误，请确保在HTTPS环境下使用",
    "TypeError" := "类型错误，浏览器可能不支持此功能"]

  /** getPermissionErrorMessage. */
  function GetPermissionErrorMessage(name: string): (m: string)
    ensures name in PermissionErrors ==> m == PermissionErrors[name]
    ensures name !in PermissionErrors ==> m == "未知的麦克风权限错误"
    ensures m != ""
  {
    if name in PermissionErrors && PermissionErrors[name] != "" then PermissionErrors[name]
    else "未知的麦克风权限错误"
  }

  // ---------------------------------------------------------------------
  // Callback routing (lines 16-23, 261-274).
  // ---------------------------------------------------------------------

  const Events: seq<string> := ["result", "error", "start", "end", "speechStart", "speechEnd"]
  const Handlers: seq<string> := ["onResult", "onError", "onStart", "onEnd", "onSpeechStart", "onSpeechEnd"]

  function NoCallbacks(): (r: map<string, Option<Callback>>)
    ensures r.Keys == set h | h in Handlers
    ensures forall h :: h in r ==> r[h] == None
  {
    map h | h in Handlers :: None
  }

  /** The callbacks key of an event name. */
  function CallbackKey(event: string): string
  {
    "on" + Capitalized(event)
  }

  function LowerAscii(c: char): char
  {
    if 'A' <= c <= 'Z' then (c as int + 32) as char else c
  }

  function LowerFirst(s: string): string
  {
    if s == [] then [] else [LowerAscii(s[0])] + s[1..]
  }

  lemma SameCapitalization(a: string, b: string)
    requires Capitalized(a) == Capitalized(b)
    ensures LowerFirst(a) == LowerFirst(b)
  {
    if a != [] {
      assert UpperAscii(a[0]) == UpperAscii(b[0]);
    }
  }

  lemma CapitalizedLowerFirst(a: string)
    ensures Capitalized(LowerFirst(a)) == Capitalized(a)
  {
  }

  lemma CallbackKeyCancel(a: string, b: string)
    requires CallbackKey(a) == CallbackKey(b)
    ensures Capitalized(a) == Capitalized(b)
  {
    assert CallbackKey(a)[2..] == Capitalized(a);
    assert CallbackKey(b)[2..] == Capitalized(b);
  }

  lemma HandlerOfEvent(i: nat)
    requires i < 6
    ensures Handlers[i] == CallbackKey(Events[i]) && LowerFirst(Events[i]) == Events[i]
  {
    var e := Events[i];
    assert 'a' <= e[0] <= 'z';
    KeyOfLower(e, Handlers[i]);
  }

  lemma KeyOfLower(e: string, h: string)
    requires e != [] && 'a' <= e[0] <= 'z'
    requires |h| == |e| + 2 && h[..2] == "on" && h[2] as int == e[0] as int - 32 && h[3..] == e[1..]
    ensures h == CallbackKey(e) && LowerFirst(e) == e
  {
    assert UpperAscii(e[0]) == h[2];
    assert Capitalized(e) == [h[2]] + h[3..];
    assert h[2..] == [h[2]] + h[3..];
    assert h == h[..2] + h[2..];
    assert LowerAscii(e[0]) == e[0];
    assert LowerFirst(e) == [e[0]] + e[1..];
  }

  /** An event name reaches a handler exactly when it is one of the six
      names, its first letter in either case. */
  lemma {:induction false} HandlerIff(event: string)
    ensures CallbackKey(event) in Handlers <==> LowerFirst(event) in Events
  {
    if CallbackKey(event) in Handlers {
      var i :| 0 <= i < 6 && Handlers[i] == CallbackKey(event);
      HandlerOfEvent(i);
      CallbackKeyCancel(event, Events[i]);
      SameCapitalization(event, Events[i]);
    }
    if LowerFirst(event) in Events {
      var i :| 0 <= i < 6 && Events[i] == LowerFirst(event);
      HandlerOfEvent(i);
      CapitalizedLowerFirst(event);
    }
  }

  /** One `setCallback`: only a key the callbacks object already has is
      written. */
  function Route(cbs: map<string, Option<Callback>>, event: string, cb: Option<Callback>): (r: map<string, Option<Callback>>)
    ensures r.Keys == cbs.Keys
    ensures CallbackKey(event) in cbs ==> r[CallbackKey(event)] == cb
    ensures forall h :: h in cbs && h != CallbackKey(event) ==> r[h] == cbs[h]
  {
    var key := CallbackKey(event);
    if key in cbs then cbs[key := cb] else cbs
  }

  /** `Object.keys(callbacks).forEach(...)`: the entries in key order. */
  function RouteAll(cbs: map<string, Option<Callback>>, entries: seq<(string, Option<Callback>)>): (r: map<string, Option<Callback>>)
    ensures r.Keys == cbs.Keys
  {
    if entries == [] then cbs
    else
      var last := entries[|entries| - 1];
      Route(RouteAll(cbs, entries[..|entries| - 1]), last.0, last.1)
  }

  /** A handler no entry names keeps its callback. */
  lemma {:induction false} RouteAllUntouched(cbs: map<string, Option<Callback>>, entries: seq<(string, Option<Callback>)>, h: string)
    requires h in cbs
    requires forall i :: 0 <= i < |entries| ==> CallbackKey(entries[i].0) != h
    ensures RouteAll(cbs, entries)[h] == cbs[h]
  {
    if entries != [] {
      var p := entries[..|entries| - 1];
      assert forall i :: 0 <= i < |p| ==> p[i] == entries[i];
      RouteAllUntouched(cbs, p, h);
    }
  }

  /** The last entry naming a handler decides its callback. */
  lemma {:induction false} RouteAllLast(cbs: map<string, Option<Callback>>, entries: seq<(string, Option<Callback>)>, j: nat)
    requires j < |entries| && CallbackKey(entries[j].0) in cbs
    requires forall i :: j < i < |entries| ==> CallbackKey(entries[i].0) != CallbackKey(entries[j].0)
    ensures RouteAll(cbs, entries)[CallbackKey(entries[j].0)] == entries[j].1
  {
    var p := entries[..|entries| - 1];
    if j < |entries| - 1 {
      assert forall i :: j < i < |p| ==> p[i] == entries[i];
      RouteAllLast(cbs, p, j);
    }
  }

  predicate Registered(cbs: map<string, Option<Callback>>, h: string)
  {
    h in cbs && cbs[h].Some?
  }

  // ---------------------------------------------------------------------
  // The recognizer.
  // ---------------------------------------------------------------------

  const Unsupported := "当前浏览器不支持语音识别功能"

  class SpeechRecognizer {
    var config: map<string, Json>
    /** `this.recognition !== null`. */
    var hasRecognition: bool
    /** `recognition.lang`, once a recognition object exists. */
    var recognitionLang: Json
    var isListening: bool
    var isSupported: bool
    /** Undefined until the first start or stop: read as false. */
    var shouldRestart: bool
    var callbacks: map<string, Option<Callback>>
    var lastSpeechTime: int

    /** The configuration always has a language: the defaults put one
        there and later updates only overwrite it. */
    ghost predicate Valid()
      reads this
    {
      "lang" in config
    }

    /** `new SpeechRecognizer(config)`; `supported` is what checkSupport
        finds in the window. */
    constructor(userConfig: map<string, Json>, supported: bool)
      ensures Valid()
      ensures config == Settings(userConfig)
      ensures !hasRecognition && !isListening && !shouldRestart
      ensures isSupported == supported
      ensures callbacks == NoCallbacks() && lastSpeechTime == 0
    {
      config := DefaultSettings() + userConfig;
      hasRecognition := false;
      recognitionLang := Null;
      isListening := false;
      isSupported := supported;
      shouldRestart := false;
      callbacks := NoCallbacks();
      lastSpeechTime := 0;
    }

    /** init: creates the recognition object and gives it the configured
        language; throws when the browser has none. */
    method Init() returns (r: Result<bool>)
      requires Valid()
      modifies this
      ensures Valid()
      ensures !old(isSupported) ==> r == Throws(Unsupported) && unchanged(this)
      ensures old(isSupported) ==> r == Ok(true) && hasRecognition
      ensures old(isSupported) ==> recognitionLang == RecognitionLanguage(old(config)["lang"])
      ensures config == old(config) && isListening == old(isListening) && shouldRestart == old(shouldRestart)
      ensures callbacks == old(callbacks) && lastSpeechTime == old(lastSpeechTime)
      ensures isSupported == old(isSupported)
    {
      if !isSupported {
        return Throws(Unsupported);
      }
      hasRecognition := true;
      SetLanguage(config["lang"]);
      assert config == old(config);
      r := Ok(true);
    }

    /** setLanguage: only once a recognition object exists; the unmapped
        value is kept in the configuration. */
    method SetLanguage(lang: Json)
      requires Valid()
      modifies this`recognitionLang, this`config
      ensures Valid()
      ensures !hasRecognition ==> recognitionLang == old(recognitionLang) && config == old(config)
      ensures hasRecognition ==> recognitionLang == RecognitionLanguage(lang) && config == old(config)["lang" := lang]
    {
      if !hasRecognition {
        return;
      }
      recognitionLang := RecognitionLanguage(lang);
      config := config["lang" := lang];
    }

    /** handleResult: the results from `resultIndex` on, split into final
        and interim text; onResult, if set, receives both trimmed. */
    method HandleResult(results: seq<Alternative>, resultIndex: nat, now: int) returns (event: Option<ResultEvent>)
      modifies this`lastSpeechTime
      ensures event.Some? <==> Registered(callbacks, "onResult")
      ensures var w := Window(results, resultIndex, |results|);
        event.Some? ==> event.value == ResultEvent(Trim(Finals(w)), Trim(Interims(w)),
                                                   MaxConfidence(w, 0.0), |Finals(w)| > 0, now)
      ensures var w := Window(results, resultIndex, |results|);
        lastSpeechTime == (if Finals(w) != "" || Interims(w) != "" then now else old(lastSpeechTime))
    {
      var finalTranscript, interimTranscript, confidence := ReadResults(results, resultIndex);
      if Registered(callbacks, "onResult") {
        event := Some(ResultEvent(Trim(finalTranscript), Trim(interimTranscript),
                                  confidence, |finalTranscript| > 0, now));
      } else {
        event := None;
      }
      if finalTranscript != "" || interimTranscript != "" {
        lastSpeechTime := now;
      }
    }

    /** handleError: onError, if set, receives the message; a restart is
        scheduled for the codes of silence and failed capture when
        recognition is continuous. */
    method HandleError(code: string, now: int) returns (event: Option<ErrorEvent>, restart: bool)
      ensures event.Some? <==> Registered(callbacks, "onError")
      ensures event.Some? ==> event.value == ErrorEvent(code, ErrorMessage(code), now)
      ensures restart <==> code in RestartCodes && Truthy(Lookup(config, "continuous"))
    {
      var message := ErrorMessage(code);
      event := if Registered(callbacks, "onError") then Some(ErrorEvent(code, message, now)) else None;
      restart := (code == "no-speech" || code == "audio-capture") && Truthy(Lookup(config, "continuous"));
    }

    /** start: throws when unsupported; creates the recognition object if
        needed; does nothing more while listening; otherwise sets the
        restart flag and starts the recognizer (Ok(true)). */
    method Start() returns (r: Result<bool>)
      requires Valid()
      modifies this
      ensures Valid()
      ensures !old(isSupported) ==> r == Throws(Unsupported) && unchanged(this)
      ensures old(isSupported) ==> hasRecognition && r == Ok(!old(isListening))
      ensures old(isSupported) ==> shouldRestart == (old(shouldRestart) || !old(isListening))
      ensures old(isSupported) && !old(hasRecognition) ==> recognitionLang == RecognitionLanguage(old(config)["lang"])
      ensures old(isSupported) && old(hasRecognition) ==> recognitionLang == old(recognitionLang)
      ensures config == old(config) && isListening == old(isListening) && callbacks == old(callbacks)
      ensures isSupported == old(isSupported) && lastSpeechTime == old(lastSpeechTime)
    {
      if !isSupported {
        return Throws(Unsupported);
      }
      if !hasRecognition {
        var _ := Init();
      }
      if isListening {
        return Ok(false);
      }
      shouldRestart := true;
      r := Ok(true);
    }

    /** stop: clears the restart flag; the recognizer is stopped (true)
        only while it listens. */
    method Stop() returns (stopped: bool)
      modifies this`shouldRestart
      ensures !shouldRestart
      ensures stopped <==> hasRecognition && isListening
    {
      shouldRestart := false;
      stopped := hasRecognition && isListening;
    }

    /** abort: clears the restart flag; any recognizer is aborted. */
    method Abort() returns (aborted: bool)
      modifies this`shouldRestart
      ensures !shouldRestart
      ensures aborted <==> hasRecognition
    {
      shouldRestart := false;
      aborted := hasRecognition;
    }

    /** The recognizer's start event. */
    method OnStart() returns (called: bool)
      modifies this`isListening
      ensures isListening && (called <==> Registered(callbacks, "onStart"))
    {
      isListening := true;
      called := Registered(callbacks, "onStart");
    }

    /** The recognizer's end event: a restart is scheduled when recognition
        is continuous and nobody stopped it. */
    method OnEnd() returns (called: bool, restart: bool)
      modifies this`isListening
      ensures !isListening && (called <==> Registered(callbacks, "onEnd"))
      ensures restart <==> Truthy(Lookup(config, "continuous")) && shouldRestart
    {
      isListening := false;
      called := Registered(callbacks, "onEnd");
      restart := Truthy(Lookup(config, "continuous")) && shouldRestart;
    }

    /** A scheduled restart: it starts again only if no stop came in
        between. */
    method RestartFires() returns (r: Result<bool>)
      requires Valid()
      modifies this
      ensures Valid()
      ensures !old(shouldRestart) ==> r == Ok(false) && unchanged(this)
      ensures old(shouldRestart) && !old(isSupported) ==> r == Throws(Unsupported) && unchanged(this)
      ensures old(shouldRestart) && old(isSupported) ==> r == Ok(!old(isListening)) && shouldRestart && hasRecognition
      ensures old(shouldRestart) && old(isSupported) && !old(hasRecognition) ==>
        recognitionLang == RecognitionLanguage(old(config)["lang"])
      ensures old(hasRecognition) ==> recognitionLang == old(recognitionLang)
      ensures config == old(config) && isListening == old(isListening) && callbacks == old(callbacks)
      ensures isSupported == old(isSupported) && lastSpeechTime == old(lastSpeechTime)
    {
      if shouldRestart {
        r := Start();
      } else {
        r := Ok(false);
      }
    }

    /** setCallback. */
    method SetCallback(event: string, cb: Option<Callback>)
      modifies this`callbacks
      ensures callbacks == Route(old(callbacks), event, cb)
    {
      var key := CallbackKey(event);
      if key in callbacks {
        callbacks := callbacks[key := cb];
      }
    }

    /** setCallbacks: the entries of the object, in key order. */
    method SetCallbacks(entries: seq<(string, Option<Callback>)>)
      modifies this`callbacks
      ensures callbacks == RouteAll(old(callbacks), entries)
    {
      var i := 0;
      while i < |entries|
        invariant i <= |entries|
        invariant callbacks == RouteAll(old(callbacks), entries[..i])
      {
        assert entries[..i + 1][..i] == entries[..i];
        SetCallback(entries[i].0, entries[i].1);
        i := i + 1;
      }
      assert entries[..i] == entries;
    }

    /** updateConfig: the new keys win, and a live recognizer takes the
        resulting language. */
    method UpdateConfig(update: map<string, Json>)
      requires Valid()
      modifies this`config, this`recognitionLang
      ensures Valid()
      ensures config == old(config) + update
      ensures hasRecognition ==> recognitionLang == RecognitionLanguage(config["lang"])
      ensures !hasRecognition ==> recognitionLang == old(recognitionLang)
    {
      config := config + update;
      if hasRecognition {
        SetLanguage(config["lang"]);
        assert config == old(config) + update;
      }
    }

    /** destroy: stopped, without a recognizer, and with no callbacks
        object keys left. */
    method Destroy() returns (stopped: bool)
      modifies this
      ensures !shouldRestart && !hasRecognition && callbacks == map[]
      ensures stopped <==> old(hasRecognition) && old(isListening)
      ensures config == old(config) && isListening == old(isListening) && recognitionLang == old(recognitionLang)
      ensures isSupported == old(isSupported) && lastSpeechTime == old(lastSpeechTime)
    {
      stopped := Stop();
      hasRecognition := false;
      callbacks := map[];
    }
  }

  /** After destroy no event name reaches a callback. */
  lemma DestroyedRoutesNothing(event: string, cb: Option<Callback>)
    ensures Route(map[], event, cb) == map[]
  {
  }
}
