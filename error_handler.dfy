/**
 * The error handler of src/utils/error-handler.js: the normalised error
 * record, the message-based severity classifier, the notification decision
 * of `handleError`, the bounded error log, the recovery suggestions and the
 * log statistics. Notifications themselves are DOM work and are not
 * modelled: `HandleError` returns which notification it would show. The
 * clock reading `Date.now()` is the parameter `now`.
 */
module ErrorHandling {
  import opened JsValue
  import opened JsString

  // ---------------------------------------------------------------------
  // normalizeError (lines 86-118).
  // ---------------------------------------------------------------------

  /** The normalised error, by the fields the handler reads. */
  datatype ErrorRecord = ErrorRecord(kind: string, message: string, severity: string, timestamp: int)

  /** What `handleError` is given: a string, an Error object, or a plain
      object whose fields are present or absent. */
  datatype ErrorInfo =
    | Text(text: string)
    | ErrorObject(errorMessage: string)
    | Plain(kind: Option<string>, message: Option<string>, severity: Option<string>, timestamp: Option<int>)

  /** `{ type: v || dflt, ..., ...errorInfo }`: the spread puts back every
      field the input has, so a present field wins even when it is empty. */
  function Field<T>(present: Option<T>, dflt: T): (r: T)
    ensures present.Some? ==> r == present.value
    ensures present.None? ==> r == dflt
  {
    if present.Some? then present.value else dflt
  }

  function NormalizeError(info: ErrorInfo, now: int): (e: ErrorRecord)
    ensures info.Text? ==> e == ErrorRecord("custom", info.text, "warning", now)
    ensures info.ErrorObject? ==> e == ErrorRecord("javascript", info.errorMessage, "error", now)
  {
    match info
    case Text(s) => ErrorRecord("custom", s, "warning", now)
    case ErrorObject(m) => ErrorRecord("javascript", m, "error", now)
    case Plain(k, m, s, t) =>
      ErrorRecord(Field(k, "unknown"), Field(m, "未知错误"), Field(s, "error"), Field(t, now))
  }

  /** The defaults of a plain object apply exactly to the fields it lacks. */
  lemma NormalizePlain(k: Option<string>, m: Option<string>, s: Option<string>, t: Option<int>, now: int)
    ensures var e := NormalizeError(Plain(k, m, s, t), now);
      && (k.Some? ==> e.kind == k.value) && (k.None? ==> e.kind == "unknown")
      && (m.Some? ==> e.message == m.value) && (m.None? ==> e.message == "未知错误")
      && (s.Some? ==> e.severity == s.value) && (s.None? ==> e.severity == "error")
      && (t.Some? ==> e.timestamp == t.value) && (t.None? ==> e.timestamp == now)
  {
  }

  // ---------------------------------------------------------------------
  // getErrorSeverity (lines 121-143).
  // ---------------------------------------------------------------------

  datatype Severity = Critical | Warning | Error

  /** The order of the rules that give a severity: Critical's come first. */
  function Rank(s: Severity): nat
  {
    match s
    case Critical => 0
    case Warning => 1
    case Error => 2
  }

  function SeverityName(s: Severity): string
  {
    match s
    case Critical => "critical"
    case Warning => "warning"
    case Error => "error"
  }

  /** The words of the API and network rule and of the permission rule. */
  predicate CriticalWords(m: string)
  {
    Contains(m, "API") || Contains(m, "网络") || Contains(m, "权限") || Contains(m, "not-allowed")
  }

  /** The words of the configuration rule and of the speech rule. */
  predicate WarningWords(m: string)
  {
    Contains(m, "配置") || Contains(m, "密钥") || Contains(m, "语音") || Contains(m, "识别")
  }

  /** getErrorSeverity: critical for API, network or permission words,
      otherwise warning for configuration or speech words, otherwise
      error. */
  function GetErrorSeverity(message: string): (s: Severity)
    ensures s == Critical <==> CriticalWords(message)
    ensures s == Warning <==> !CriticalWords(message) && WarningWords(message)
  {
    if Contains(message, "API") || Contains(message, "网络") then Critical
    else if Contains(message, "权限") || Contains(message, "not-allowed") then Critical
    else if Contains(message, "配置") || Contains(message, "密钥") then Warning
    else if Contains(message, "语音") || Contains(message, "识别") then Warning
    else Error
  }

  /** Adding text around a message never lowers its severity: the words that
      raised it are still there, and earlier rules win. */
  lemma SeverityMonotone(u: string, m: string, t: string)
    ensures Rank(GetErrorSeverity(u + m + t)) <= Rank(GetErrorSeverity(m))
  {
    if CriticalWords(m) {
      if Contains(m, "API") { ContainsExtended(u, m, t, "API"); }
      if Contains(m, "网络") { ContainsExtended(u, m, t, "网络"); }
      if Contains(m, "权限") { ContainsExtended(u, m, t, "权限"); }
      if Contains(m, "not-allowed") { ContainsExtended(u, m, t, "not-allowed"); }
    } else if WarningWords(m) {
      if Contains(m, "配置") { ContainsExtended(u, m, t, "配置"); }
      if Contains(m, "密钥") { ContainsExtended(u, m, t, "密钥"); }
      if Contains(m, "语音") { ContainsExtended(u, m, t, "语音"); }
      if Contains(m, "识别") { ContainsExtended(u, m, t, "识别"); }
    }
  }

  // ---------------------------------------------------------------------
  // The notification decision of handleError (lines 71-77).
  // ---------------------------------------------------------------------

  /** A notification: its style and how long it stays, in milliseconds. */
  datatype Notice = Notice(style: string, duration: nat)

  function NoticeFor(s: Severity): (n: Option<Notice>)
    ensures n.Some? <==> s != Error
    ensures s == Critical ==> n == Some(Notice("error", 8000))
    ensures s == Warning ==> n == Some(Notice("warning", 5000))
  {
    match s
    case Critical => Some(Notice("error", 8000))
    case Warning => Some(Notice("warning", 5000))
    case Error => None
  }

  // ---------------------------------------------------------------------
  // getRecoverySuggestion (lines 307-317).
  // ---------------------------------------------------------------------

  const Suggestions: map<string, string> := map[
    "network" := "请检查网络连接并重试",
    "permission" := "请刷新页面并允许相关权限",
    "config" := "请检查API配置是否正确",
    "api" := "请稍后重试或检查API配额",
    "speech" := "请检查麦克风设备并重新开始"
  ]

  function GetRecoverySuggestion(e: ErrorRecord): (r: string)
    ensures e.kind in Suggestions ==> r == Suggestions[e.kind]
    ensures e.kind !in Suggestions ==> r == "请刷新页面重试"
    ensures r != ""
  {
    if e.kind in Suggestions && Suggestions[e.kind] != "" then Suggestions[e.kind] else "请刷新页面重试"
  }

  // ---------------------------------------------------------------------
  // The log (lines 5-6, 146-156, 337-339).
  // ---------------------------------------------------------------------

  const MaxLogSize: nat := 100

  /** The log after `push` and the overflow `shift`. */
  function Logged(log: seq<ErrorRecord>, e: ErrorRecord): (r: seq<ErrorRecord>)
    ensures |log| <= MaxLogSize ==> |r| <= MaxLogSize
    ensures |r| >= 1 && r[|r| - 1] == e
    ensures |log| < MaxLogSize ==> r[..|r| - 1] == log
    ensures |log| == MaxLogSize ==> r[..|r| - 1] == log[1..]
  {
    assert (log + [e])[..|log|] == log;
    if |log| + 1 > MaxLogSize then (log + [e])[1..] else log + [e]
  }

  /** Starting from an empty log, the log holds the last 100 errors logged,
      oldest first. */
  lemma {:induction false} LoggedAll(es: seq<ErrorRecord>)
    ensures LogOf(es) == es[|es| - Min(|es|, MaxLogSize)..]
  {
    if es != [] {
      var init := es[..|es| - 1];
      LoggedAll(init);
      var n := |es|;
      assert init + [es[n - 1]] == es;
      if n > MaxLogSize {
        assert LogOf(init) == init[n - 1 - MaxLogSize..];
        assert (LogOf(init) + [es[n - 1]])[1..] == es[n - MaxLogSize..];
      } else {
        assert LogOf(init) == init;
      }
    }
  }

  function Min(a: nat, b: nat): nat
  {
    if a <= b then a else b
  }

  /** The log after logging each of es in turn, from empty. */
  function LogOf(es: seq<ErrorRecord>): (r: seq<ErrorRecord>)
    ensures |r| <= MaxLogSize
  {
    if es == [] then [] else Logged(LogOf(es[..|es| - 1]), es[|es| - 1])
  }

  // ---------------------------------------------------------------------
  // getErrorStats (lines 320-334).
  // ---------------------------------------------------------------------

  /** `counts[k] = (counts[k] || 0) + 1`. */
  function Bump(counts: map<string, nat>, k: string): map<string, nat>
  {
    counts[k := (if k in counts then counts[k] else 0) + 1]
  }

  /** The counts the forEach leaves behind: every value that occurs, with the
      number of its occurrences. */
  function Counts(s: seq<string>): (r: map<string, nat>)
    ensures forall k :: k in r <==> k in s
    ensures forall k :: k in r ==> r[k] == multiset(s)[k]
  {
    if s == [] then map[]
    else
      var init := s[..|s| - 1];
      assert s == init + [s[|s| - 1]];
      Bump(Counts(init), s[|s| - 1])
  }

  /** The sum of a map's counts. */
  ghost function MapSum(m: map<string, nat>): nat
    decreases |m|
  {
    if m == map[] then 0
    else
      var k :| k in m;
      m[k] + MapSum(m - {k})
  }

  lemma {:induction false} MapSumRemove(m: map<string, nat>, k: string)
    requires k in m
    ensures MapSum(m) == m[k] + MapSum(m - {k})
    decreases |m|
  {
    var j :| j in m && MapSum(m) == m[j] + MapSum(m - {j});
    if j != k {
      MapSumRemove(m - {j}, k);
      MapSumRemove(m - {k}, j);
      assert m - {j} - {k} == m - {k} - {j};
    }
  }

  /** One more occurrence adds one to the sum. */
  lemma BumpSum(m: map<string, nat>, x: string)
    ensures MapSum(Bump(m, x)) == MapSum(m) + 1
  {
    var b := Bump(m, x);
    MapSumRemove(b, x);
    if x in m {
      MapSumRemove(m, x);
      assert b - {x} == m - {x};
    } else {
      assert b - {x} == m;
    }
  }

  /** The counts of a log add up to its length. */
  lemma {:induction false} CountsSum(s: seq<string>)
    ensures MapSum(Counts(s)) == |s|
  {
    if s != [] {
      var init, x := s[..|s| - 1], s[|s| - 1];
      CountsSum(init);
      BumpSum(Counts(init), x);
    }
  }

  function Kinds(log: seq<ErrorRecord>): (r: seq<string>)
    ensures |r| == |log| && forall i :: 0 <= i < |log| ==> r[i] == log[i].kind
  {
    seq(|log|, i requires 0 <= i < |log| => log[i].kind)
  }

  function Severities(log: seq<ErrorRecord>): (r: seq<string>)
    ensures |r| == |log| && forall i :: 0 <= i < |log| ==> r[i] == log[i].severity
  {
    seq(|log|, i requires 0 <= i < |log| => log[i].severity)
  }

  datatype Stats = Stats(total: nat, byType: map<string, nat>, bySeverity: map<string, nat>, recent: seq<ErrorRecord>)

  class ErrorHandler {
    var errorLog: seq<ErrorRecord>

    ghost predicate Valid()
      reads this
    {
      |errorLog| <= MaxLogSize
    }

    /** The constructor; the notification container and the global
        listeners of `init` are not modelled. */
    constructor()
      ensures Valid() && errorLog == []
    {
      errorLog := [];
    }

    /** logError. */
    method LogError(e: ErrorRecord)
      requires Valid()
      modifies this
      ensures Valid()
      ensures errorLog == Logged(old(errorLog), e)
    {
      errorLog := errorLog + [e];
      if |errorLog| > MaxLogSize {
        errorLog := errorLog[1..];
      }
    }

    /** handleError: normalise, log, classify the message, and choose the
        notification; the normalised error is returned. */
    method HandleError(info: ErrorInfo, now: int) returns (e: ErrorRecord, notice: Option<Notice>)
      requires Valid()
      modifies this
      ensures Valid()
      ensures e == NormalizeError(info, now)
      ensures errorLog == Logged(old(errorLog), e)
      ensures notice == NoticeFor(GetErrorSeverity(e.message))
    {
      e := NormalizeError(info, now);
      LogError(e);
      var severity := GetErrorSeverity(e.message);
      notice := NoticeFor(severity);
    }

    /** getErrorStats: the total, the counts by type and by stored
        severity, and the last ten errors. */
    method GetErrorStats() returns (stats: Stats)
      ensures stats.total == |errorLog|
      ensures stats.byType == Counts(Kinds(errorLog))
      ensures stats.bySeverity == Counts(Severities(errorLog))
      ensures stats.recent == errorLog[|errorLog| - Min(|errorLog|, 10)..]
    {
      var byType: map<string, nat> := map[];
      var bySeverity: map<string, nat> := map[];
      var i := 0;
      while i < |errorLog|
        invariant i <= |errorLog|
        invariant byType == Counts(Kinds(errorLog[..i]))
        invariant bySeverity == Counts(Severities(errorLog[..i]))
      {
        assert Kinds(errorLog[..i + 1])[..i] == Kinds(errorLog[..i]);
        assert Severities(errorLog[..i + 1])[..i] == Severities(errorLog[..i]);
        byType := Bump(byType, errorLog[i].kind);
        bySeverity := Bump(bySeverity, errorLog[i].severity);
        i := i + 1;
      }
      assert errorLog[..i] == errorLog;
      stats := Stats(|errorLog|, byType, bySeverity, errorLog[|errorLog| - Min(|errorLog|, 10)..]);
    }

    /** clearErrorLog. */
    method ClearErrorLog()
      modifies this
      ensures Valid() && errorLog == []
    {
      errorLog := [];
    }
  }

  /** The counts of a statistics report each add up to its total. */
  lemma StatsAddUp(log: seq<ErrorRecord>)
    ensures MapSum(Counts(Kinds(log))) == |log|
    ensures MapSum(Counts(Severities(log))) == |log|
  {
    CountsSum(Kinds(log));
    CountsSum(Severities(log));
  }
}
