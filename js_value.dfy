/**
 * JavaScript values as the extension's configuration code sees them: the
 * JSON-like values stored in chrome.storage, `undefined` as an absent
 * Option, truthiness, property access, and the keys of `{...v}`.
 */
module JsValue {

  datatype Option<T> = None | Some(value: T)

  /** A completed call or the message of the Error it throws. */
  datatype Result<T> = Ok(value: T) | Throws(message: string)

  /** A JSON value. Numbers are reals: NaN and the infinities are not
      modelled. */
  datatype Json =
    | Null
    | Bool(b: bool)
    | Num(n: real)
    | Str(s: string)
    | Arr(items: seq<Json>)
    | Obj(fields: map<string, Json>)

  /** ToBoolean of a value, `undefined` being None. */
  predicate Truthy(v: Option<Json>)
  {
    match v
    case None => false
    case Some(Null) => false
    case Some(Bool(b)) => b
    case Some(Num(n)) => n != 0.0
    case Some(Str(s)) => s != ""
    case Some(Arr(_)) => true
    case Some(Obj(_)) => true
  }

  /** `o[name]` on an object given as its own properties. */
  function Lookup(o: map<string, Json>, name: string): (r: Option<Json>)
    ensures r.Some? <==> name in o
    ensures r.Some? ==> r.value == o[name]
  {
    if name in o then Some(o[name]) else None
  }

  /** `v.name`: the property of an object; the primitives, arrays and
      strings have no property of the names the extension reads. */
  function Member(v: Option<Json>, name: string): Option<Json>
  {
    if v.Some? && v.value.Obj? then Lookup(v.value.fields, name) else None
  }

  /** `v || dflt` for an object default. */
  function OrElse(v: Option<Json>, dflt: Json): (r: Json)
    ensures Truthy(v) ==> r == v.value
    ensures !Truthy(v) ==> r == dflt
  {
    if Truthy(v) then v.value else dflt
  }

  // ---------------------------------------------------------------------
  // Array indices as property keys.
  // ---------------------------------------------------------------------

  function Digit(d: nat): (c: char)
    requires d < 10
    ensures '0' <= c <= '9'
  {
    ('0' as int + d) as char
  }

  /** The canonical decimal string of a natural number, as used for the
      index keys of arrays and strings. */
  function Decimal(n: nat): (s: string)
    ensures |s| >= 1 && '0' <= s[|s| - 1] <= '9'
    ensures s[|s| - 1] == Digit(n % 10)
  {
    if n < 10 then [Digit(n)] else Decimal(n / 10) + [Digit(n % 10)]
  }

  /** Different indices have different keys. */
  lemma {:induction false} DecimalInjective(m: nat, n: nat)
    requires Decimal(m) == Decimal(n)
    ensures m == n
  {
    assert Digit(m % 10) == Digit(n % 10);
    if m >= 10 && n >= 10 {
      var a, b := Decimal(m / 10), Decimal(n / 10);
      assert a == Decimal(m)[..|Decimal(m)| - 1];
      assert b == Decimal(n)[..|Decimal(n)| - 1];
      DecimalInjective(m / 10, n / 10);
    } else if m >= 10 {
      DecimalLong(m);
    } else if n >= 10 {
      DecimalLong(n);
    }
  }

  lemma DecimalLong(n: nat)
    requires n >= 10
    ensures |Decimal(n)| >= 2
  {
  }

  /** The own enumerable properties copied by `{...v}`: an object's fields,
      the elements of an array and the characters of a string under their
      index keys, and nothing for the other primitives. */
  function Spread(v: Json): (r: map<string, Json>)
    ensures v.Obj? ==> r == v.fields
    ensures v.Null? || v.Bool? || v.Num? ==> r == map[]
  {
    match v
    case Obj(f) => f
    case Arr(items) => IndexedSpread(items)
    case Str(s) => IndexedSpread(seq(|s|, i requires 0 <= i < |s| => Str([s[i]])))
    case _ => map[]
  }

  /** The elements of a sequence under their index keys. */
  function IndexedSpread(items: seq<Json>): (r: map<string, Json>)
    ensures forall i :: 0 <= i < |items| ==> Decimal(i) in r && r[Decimal(i)] == items[i]
    ensures forall k :: k in r ==> exists i :: 0 <= i < |items| && k == Decimal(i)
  {
    IndexKeysInjective(|items|);
    map i | 0 <= i < |items| :: Decimal(i) := items[i]
  }

  lemma IndexKeysInjective(n: nat)
    ensures forall i, j :: 0 <= i < n && 0 <= j < n && Decimal(i) == Decimal(j) ==> i == j
  {
    forall i, j | 0 <= i < n && 0 <= j < n && Decimal(i) == Decimal(j)
      ensures i == j
    {
      DecimalInjective(i, j);
    }
  }
}
