/**
 * The configuration manager of src/utils/config.js: the default
 * configuration, the deep merge used to lay a stored or partial
 * configuration over it, and the validation run before a configuration is
 * imported. A configuration is an object, given by its own properties.
 */
module Config {
  import opened JsValue

  type Object = map<string, Json>

  /** defaultConfig. */
  const DefaultConfig: Object := map[
    "appid" := Str(""),
    "key" := Str(""),
    "language" := Obj(map["from" := Str("auto"), "to" := Str("zh")]),
    "speech" := Obj(map["continuous" := Bool(true), "interimResults" := Bool(true), "lang" := Str("auto")]),
    "ui" := Obj(map["position" := Str("bottom-center"), "theme" := Str("dark"), "fontSize" := Num(16.0),
                    "autoHide" := Bool(true), "hideDelay" := Num(5000.0)]),
    "advanced" := Obj(map["retryCount" := Num(3.0), "timeout" := Num(10000.0), "cacheEnabled" := Bool(true),
                          "debugMode" := Bool(false)])
  ]

  // ---------------------------------------------------------------------
  // mergeConfig.
  // ---------------------------------------------------------------------

  /** `{...d}` with every own key of u assigned: a plain object of u (not
      null, not an array) merged recursively into `d[key] || {}`, any other
      value of u copied over d's. */
  function MergeConfig(d: Object, u: Object): (r: Object)
    ensures r.Keys == d.Keys + u.Keys
    ensures forall k :: k in d && k !in u ==> r[k] == d[k]
    ensures forall k :: k in u && !u[k].Obj? ==> r[k] == u[k]
    ensures forall k :: k in u && u[k].Obj? ==> r[k].Obj?
    decreases Obj(u)
  {
    map k | k in d.Keys + u.Keys ::
      if k in u then
        (if u[k].Obj? then Obj(MergeConfig(Spread(OrElse(Lookup(d, k), Obj(map[]))), u[k].fields)) else u[k])
      else d[k]
  }

  /** Every value that u gives, at any depth, is in the merge: objects of u
      are objects of the result, holding u's values in turn. */
  predicate Overrides(r: Object, u: Object)
    decreases Obj(u)
  {
    forall k :: k in u ==>
      k in r && (if u[k].Obj? then r[k].Obj? && Overrides(r[k].fields, u[k].fields) else r[k] == u[k])
  }

  lemma {:induction false} MergeOverrides(d: Object, u: Object)
    ensures Overrides(MergeConfig(d, u), u)
    decreases Obj(u)
  {
    var r := MergeConfig(d, u);
    forall k | k in u && u[k].Obj?
      ensures Overrides(r[k].fields, u[k].fields)
    {
      MergeOverrides(Spread(OrElse(Lookup(d, k), Obj(map[]))), u[k].fields);
    }
  }

  /** Every value of d, at any depth, is in the merge wherever u gives no
      value on its path: keys u lacks keep d's value, and objects of both
      are merged with the same rule one level down. */
  predicate Keeps(r: Object, d: Object, u: Object)
    decreases Obj(u)
  {
    forall k :: k in d ==>
      k in r &&
      (if k !in u then r[k] == d[k]
       else u[k].Obj? && d[k].Obj? ==> r[k].Obj? && Keeps(r[k].fields, d[k].fields, u[k].fields))
  }

  lemma {:induction false} MergeKeeps(d: Object, u: Object)
    ensures Keeps(MergeConfig(d, u), d, u)
    decreases Obj(u)
  {
    var r := MergeConfig(d, u);
    forall k | k in d && k in u && u[k].Obj? && d[k].Obj?
      ensures r[k].Obj? && Keeps(r[k].fields, d[k].fields, u[k].fields)
    {
      assert Spread(OrElse(Lookup(d, k), Obj(map[]))) == d[k].fields;
      MergeKeeps(d[k].fields, u[k].fields);
    }
  }

  /** Merging an empty user configuration copies the defaults. */
  lemma MergeEmpty(d: Object)
    ensures MergeConfig(d, map[]) == d
  {
  }

  /** Merging a configuration into itself gives it back. */
  lemma {:induction false} MergeIdempotent(d: Object)
    ensures MergeConfig(d, d) == d
    decreases Obj(d)
  {
    var r := MergeConfig(d, d);
    forall k | k in d
      ensures r[k] == d[k]
    {
      if d[k].Obj? {
        assert Spread(OrElse(Lookup(d, k), Obj(map[]))) == d[k].fields;
        MergeIdempotent(d[k].fields);
      }
    }
  }

  /** Laying the same user configuration over a merge again changes
      nothing. */
  lemma {:induction false} MergeAgain(d: Object, u: Object)
    ensures MergeConfig(MergeConfig(d, u), u) == MergeConfig(d, u)
    decreases Obj(u)
  {
    var r := MergeConfig(d, u);
    var s := MergeConfig(r, u);
    forall k | k in u && u[k].Obj?
      ensures s[k] == r[k]
    {
      var inner := Spread(OrElse(Lookup(d, k), Obj(map[])));
      assert r[k] == Obj(MergeConfig(inner, u[k].fields));
      assert Spread(OrElse(Lookup(r, k), Obj(map[]))) == MergeConfig(inner, u[k].fields);
      MergeAgain(inner, u[k].fields);
    }
  }

  // ---------------------------------------------------------------------
  // validateConfig.
  // ---------------------------------------------------------------------

  const ValidLanguages: seq<string> := ["auto", "en", "zh", "ja", "ko", "fr", "de", "es", "ru"]

  /** The six checks, in the order they run. */
  datatype Check = AppId | Key | From | To | FontSize | HideDelay

  function Message(check: Check): string
  {
    match check
    case AppId => "APP ID 不能为空"
    case Key => "API密钥不能为空"
    case From => "源语言配置无效"
    case To => "目标语言配置无效"
    case FontSize => "字体大小必须在12-24之间"
    case HideDelay => "自动隐藏延迟必须在1-30秒之间"
  }

  function Rank(check: Check): nat
  {
    match check
    case AppId => 0
    case Key => 1
    case From => 2
    case To => 3
    case FontSize => 4
    case HideDelay => 5
  }

  /** `!v || typeof v !== 'string'`. */
  predicate NotAString(v: Option<Json>)
  {
    !(Truthy(v) && v.value.Str?)
  }

  /** `validLanguages.includes(v)`. */
  predicate IsValidLanguage(v: Option<Json>)
  {
    v.Some? && v.value.Str? && v.value.s in ValidLanguages
  }

  /** The number a relational comparison converts a value to; None where it
      gives NaN, against which every comparison is false. */
  function ToNumber(v: Json): Option<real>
  {
    match v
    case Num(n) => Some(n)
    case Bool(b) => Some(if b then 1.0 else 0.0)
    case Null => Some(0.0)
    case _ => None
  }

  /** `v && (v < lo || v > hi)`. */
  predicate OutOfRange(v: Option<Json>, lo: real, hi: real)
  {
    Truthy(v) && ToNumber(v.value).Some? && (ToNumber(v.value).value < lo || ToNumber(v.value).value > hi)
  }

  /** Whether a check fails on a configuration. */
  predicate Fails(c: Object, check: Check)
  {
    var language, ui := Lookup(c, "language"), Lookup(c, "ui");
    match check
    case AppId => NotAString(Lookup(c, "appid"))
    case Key => NotAString(Lookup(c, "key"))
    case From => Truthy(language) && !IsValidLanguage(Member(language, "from"))
    case To => Truthy(language) && !IsValidLanguage(Member(language, "to"))
    case FontSize => Truthy(ui) && OutOfRange(Member(ui, "fontSize"), 12.0, 24.0)
    case HideDelay => Truthy(ui) && OutOfRange(Member(ui, "hideDelay"), 1000.0, 30000.0)
  }

  datatype Validation = Validation(isValid: bool, errors: seq<string>)

  /** Each check ranks below the next. */
  predicate InOrder(f: seq<Check>)
  {
    |f| <= 1 || (Rank(f[0]) < Rank(f[1]) && InOrder(f[1..]))
  }

  /** The checks that fail on a configuration. */
  function FailedChecks(c: Object): (s: set<Check>)
    ensures forall x :: x in s <==> Fails(c, x)
  {
    FailedExactly(c);
    FailedSet(c)
  }

  function FailedSet(c: Object): set<Check>
  {
    (if Fails(c, AppId) then {AppId} else {}) + (if Fails(c, Key) then {Key} else {}) +
    (if Fails(c, From) then {From} else {}) + (if Fails(c, To) then {To} else {}) +
    (if Fails(c, FontSize) then {FontSize} else {}) + (if Fails(c, HideDelay) then {HideDelay} else {})
  }

  lemma FailedExactly(c: Object)
    ensures forall x :: x in FailedSet(c) <==> Fails(c, x)
  {
    forall x
      ensures x in FailedSet(c) <==> Fails(c, x)
    {
      match x
      case AppId =>
      case Key =>
      case From =>
      case To =>
      case FontSize =>
      case HideDelay =>
    }
  }

  /** The check that runs k-th. */
  function CheckAt(k: nat): (x: Check)
    requires k < 6
    ensures Rank(x) == k
  {
    if k == 0 then AppId else if k == 1 then Key else if k == 2 then From
    else if k == 3 then To else if k == 4 then FontSize else HideDelay
  }

  lemma RankInjective(x: Check)
    ensures Rank(x) < 6 && CheckAt(Rank(x)) == x
  {
  }

  /** The checks of rank k and above that are in `failed`, in rank order. */
  function Failing(failed: set<Check>, k: nat): (f: seq<Check>)
    requires k <= 6
    ensures forall x :: x in f <==> x in failed && Rank(x) >= k
    ensures InOrder(f)
    decreases 6 - k
  {
    if k == 6 then []
    else
      var rest := Failing(failed, k + 1);
      if CheckAt(k) in failed then
        var f := [CheckAt(k)] + rest;
        forall x
          ensures x in f <==> x in failed && Rank(x) >= k
        {
          RankInjective(x);
        }
        assert rest != [] ==> rest[0] in rest;
        ConsInOrder(CheckAt(k), rest);
        f
      else
        forall x
          ensures x in rest <==> x in failed && Rank(x) >= k
        {
          RankInjective(x);
        }
        rest
  }

  /** A check ranked below the first of an ordered list can be put in
      front of it. */
  lemma ConsInOrder(x: Check, rest: seq<Check>)
    requires InOrder(rest) && (rest != [] ==> Rank(x) < Rank(rest[0]))
    ensures InOrder([x] + rest)
  {
    assert ([x] + rest)[1..] == rest;
  }

  /** The failed checks, in the order they run. */
  function Failures(c: Object): (f: seq<Check>)
    ensures forall check :: check in f <==> Fails(c, check)
    ensures InOrder(f)
  {
    var f := Failing(FailedChecks(c), 0);
    f
  }

  function Messages(f: seq<Check>): (m: seq<string>)
    ensures |m| == |f| && forall i :: 0 <= i < |f| ==> m[i] == Message(f[i])
  {
    if f == [] then [] else [Message(f[0])] + Messages(f[1..])
  }

  /** validateConfig: the message of each failed check, in the order of the
      checks, and `isValid` exactly when no check fails. */
  function ValidateConfig(c: Object): (r: Validation)
    ensures r.isValid <==> r.errors == []
    ensures r.isValid <==> forall check :: !Fails(c, check)
    ensures r.errors == Messages(Failures(c))
  {
    var f := Failures(c);
    assert |f| > 0 ==> Fails(c, f[0]);
    Validation(|f| == 0, Messages(f))
  }

  /** Different checks have different messages, so the messages name the
      failed checks. */
  lemma MessagesDistinct(x: Check, y: Check)
    requires x != y
    ensures Message(x) != Message(y)
  {
    assert |Message(AppId)| == 11 && |Message(Key)| == 9 && |Message(From)| == 7;
    assert |Message(To)| == 8 && |Message(FontSize)| == 14 && |Message(HideDelay)| == 16;
  }

  lemma DefaultKeys()
    ensures Lookup(DefaultConfig, "appid") == Some(Str(""))
    ensures Lookup(DefaultConfig, "key") == Some(Str(""))
  {
  }

  lemma DefaultLanguage()
    ensures Lookup(DefaultConfig, "language") == Some(Obj(map["from" := Str("auto"), "to" := Str("zh")]))
  {
  }

  lemma DefaultUi()
    ensures Member(Lookup(DefaultConfig, "ui"), "fontSize") == Some(Num(16.0))
    ensures Member(Lookup(DefaultConfig, "ui"), "hideDelay") == Some(Num(5000.0))
  {
  }

  /** The language checks pass on a language object whose source is
      "auto" and whose target is "zh". */
  lemma LanguagePasses(c: Object)
    requires Lookup(c, "language") == Some(Obj(map["from" := Str("auto"), "to" := Str("zh")]))
    ensures !Fails(c, From) && !Fails(c, To)
  {
    var l := map["from" := Str("auto"), "to" := Str("zh")];
    assert Lookup(l, "from") == Some(Str("auto"));
    assert Lookup(l, "to") == Some(Str("zh"));
    assert ValidLanguages[0] == "auto" && ValidLanguages[2] == "zh";
  }

  /** The ui checks pass on a font size of 16 and a delay of 5000 ms. */
  lemma UiPasses(c: Object)
    requires Member(Lookup(c, "ui"), "fontSize") == Some(Num(16.0))
    requires Member(Lookup(c, "ui"), "hideDelay") == Some(Num(5000.0))
    ensures !Fails(c, FontSize) && !Fails(c, HideDelay)
  {
  }

  /** The checks the defaults fail: every one whose value the defaults
      leave empty. */
  lemma FailedLikeDefaults(c: Object)
    requires Lookup(c, "appid") == Some(Str("")) && Lookup(c, "key") == Some(Str(""))
    requires !Fails(c, From) && !Fails(c, To) && !Fails(c, FontSize) && !Fails(c, HideDelay)
    ensures forall x :: x in FailedChecks(c) <==> x == AppId || x == Key
  {
  }

  lemma FailingStep(s: set<Check>, k: nat)
    requires k < 6
    ensures CheckAt(k) in s ==> Failing(s, k) == [CheckAt(k)] + Failing(s, k + 1)
    ensures CheckAt(k) !in s ==> Failing(s, k) == Failing(s, k + 1)
  {
  }

  lemma FailingKeys(s: set<Check>)
    requires forall x :: x in s <==> x == AppId || x == Key
    ensures Failing(s, 0) == [AppId, Key]
  {
    assert Failing(s, 6) == [];
    FailingStep(s, 5);
    FailingStep(s, 4);
    FailingStep(s, 3);
    FailingStep(s, 2);
    assert Failing(s, 2) == [];
    FailingStep(s, 1);
    assert Failing(s, 1) == [Key];
    FailingStep(s, 0);
    assert [AppId] + [Key] == [AppId, Key];
  }

  /** A configuration that fails the checks the defaults fail is reported
      with exactly the two API-key messages. */
  lemma ValidateLikeDefaults(c: Object)
    requires forall x :: x in FailedChecks(c) <==> x == AppId || x == Key
    ensures Failures(c) == [AppId, Key]
    ensures ValidateConfig(c) == Validation(false, [Message(AppId), Message(Key)])
  {
    FailingKeys(FailedChecks(c));
    assert Messages([AppId, Key])[1..] == Messages([Key]);
  }

  /** The defaults fail validation with exactly the two API-key messages. */
  lemma ValidateDefaultConfig()
    ensures Failures(DefaultConfig) == [AppId, Key]
    ensures ValidateConfig(DefaultConfig) == Validation(false, [Message(AppId), Message(Key)])
  {
    DefaultKeys();
    DefaultLanguage();
    DefaultUi();
    LanguagePasses(DefaultConfig);
    UiPasses(DefaultConfig);
    FailedLikeDefaults(DefaultConfig);
    ValidateLikeDefaults(DefaultConfig);
  }

  lemma MergedKeys(appid: string, key: string)
    ensures var c := MergeConfig(DefaultConfig, map["appid" := Str(appid), "key" := Str(key)]);
      && Lookup(c, "appid") == Some(Str(appid)) && Lookup(c, "key") == Some(Str(key))
      && Lookup(c, "language") == Lookup(DefaultConfig, "language")
      && Lookup(c, "ui") == Lookup(DefaultConfig, "ui")
  {
    var u := map["appid" := Str(appid), "key" := Str(key)];
    assert "language" !in u && "ui" !in u;
    DefaultLanguage();
    DefaultUi();
  }

  /** The API-key checks pass on non-empty strings. */
  lemma KeysPass(c: Object, appid: string, key: string)
    requires appid != "" && key != ""
    requires Lookup(c, "appid") == Some(Str(appid)) && Lookup(c, "key") == Some(Str(key))
    ensures !Fails(c, AppId) && !Fails(c, Key)
  {
  }

  /** A configuration that passes the six checks is valid. */
  lemma ValidateAllPass(c: Object)
    requires !Fails(c, AppId) && !Fails(c, Key) && !Fails(c, From) && !Fails(c, To)
    requires !Fails(c, FontSize) && !Fails(c, HideDelay)
    ensures ValidateConfig(c).isValid
  {
    forall check
      ensures !Fails(c, check)
    {
      RankInjective(check);
    }
  }

  /** Setting a non-empty APP ID and key over the defaults gives a valid
      configuration. */
  lemma ValidateWithKeys(appid: string, key: string)
    requires appid != "" && key != ""
    ensures ValidateConfig(MergeConfig(DefaultConfig, map["appid" := Str(appid), "key" := Str(key)])).isValid
  {
    var c := MergeConfig(DefaultConfig, map["appid" := Str(appid), "key" := Str(key)]);
    MergedKeys(appid, key);
    DefaultLanguage();
    DefaultUi();
    KeysPass(c, appid, key);
    LanguagePasses(c);
    UiPasses(c);
    ValidateAllPass(c);
  }
}
