/**
 * The permission manager of src/utils/permissions.js: the three permission
 * flags, how a round of checks updates them, the queries over them, the
 * registry of change listeners, and the browser classification from the
 * user-agent string. The browser checks themselves (getUserMedia,
 * chrome.tabCapture, chrome.storage) are foreign calls: their settled
 * results are parameters. A listener is named by a number, and its id is
 * the number `Date.now() + Math.random()` gave it.
 */
module Permissions {
  import opened JsValue
  import opened JsString

  // ---------------------------------------------------------------------
  // The record (lines 5-9, 347-354).
  // ---------------------------------------------------------------------

  /** `this.permissions`, its keys in the order they were created. */
  datatype Flags = Flags(microphone: bool, tabCapture: bool, storage: bool)

  const PermissionNames: seq<string> := ["microphone", "tabCapture", "storage"]

  function Initial(): (f: Flags)
    ensures !f.microphone && !f.tabCapture && f.storage
  {
    Flags(false, false, true)
  }

  /** `this.permissions[name]`: the flag of a known key; any other name
      reads as undefined. */
  function Flag(f: Flags, name: string): Option<bool>
  {
    if name == "microphone" then Some(f.microphone)
    else if name == "tabCapture" then Some(f.tabCapture)
    else if name == "storage" then Some(f.storage)
    else None
  }

  /** The flag at key index i. */
  function FlagAt(f: Flags, i: nat): bool
    requires i < 3
  {
    if i == 0 then f.microphone else if i == 1 then f.tabCapture else f.storage
  }

  lemma FlagOfName(f: Flags, i: nat)
    requires i < 3
    ensures Flag(f, PermissionNames[i]) == Some(FlagAt(f, i))
  {
    assert PermissionNames[0] == "microphone" && PermissionNames[1] == "tabCapture";
    assert PermissionNames[2] == "storage";
  }

  /** hasPermission: exactly when the flag is `true`. */
  function HasPermission(f: Flags, name: string): (r: bool)
    ensures r <==> Flag(f, name) == Some(true)
  {
    Flag(f, name) == Some(true)
  }

  /** hasAllRequiredPermissions: the microphone and storage; the tab-capture
      flag plays no part. */
  function HasAllRequiredPermissions(f: Flags): (r: bool)
    ensures r <==> HasPermission(f, "microphone") && HasPermission(f, "storage")
  {
    f.microphone && f.storage
  }

  /** The keys whose flag is false, in key order. */
  function MissingOf(f: Flags): (m: seq<string>)
    ensures forall i :: 0 <= i < 3 ==> (PermissionNames[i] in m <==> !FlagAt(f, i))
    ensures forall name :: name in m ==> name in PermissionNames
  {
    (if !f.microphone then ["microphone"] else []) +
    (if !f.tabCapture then ["tabCapture"] else []) +
    (if !f.storage then ["storage"] else [])
  }

  /** A key is missing exactly when hasPermission says no. */
  lemma MissingIffNotPermitted(f: Flags, name: string)
    requires name in PermissionNames
    ensures name in MissingOf(f) <==> !HasPermission(f, name)
  {
    var i :| 0 <= i < 3 && PermissionNames[i] == name;
    FlagOfName(f, i);
  }

  /** What a check settles to. */
  datatype Settled = Fulfilled(value: bool) | Rejected

  function Settle(old_: bool, s: Settled): (r: bool)
    ensures s.Fulfilled? ==> r == s.value
    ensures s.Rejected? ==> r == old_
  {
    if s.Fulfilled? then s.value else old_
  }

  /** The flags with the ones of indices below n replaced by the fulfilled
      results. */
  function SettledUpTo(f: Flags, results: seq<Settled>, n: nat): (g: Flags)
    requires |results| == 3 && n <= 3
  {
    Flags(if n > 0 then Settle(f.microphone, results[0]) else f.microphone,
          if n > 1 then Settle(f.tabCapture, results[1]) else f.tabCapture,
          if n > 2 then Settle(f.storage, results[2]) else f.storage)
  }

  // ---------------------------------------------------------------------
  // The listener registry (lines 290-317).
  // ---------------------------------------------------------------------

  /** A callback, by name. */
  type Callback = nat

  /** `this.callbacks`: ids with their callbacks, in insertion order. */
  datatype Listener = Listener(id: real, callback: Callback)

  /** No listener is registered under the id. */
  predicate Fresh(l: seq<Listener>, id: real)
  {
    forall i :: 0 <= i < |l| ==> l[i].id != id
  }

  /** Every id is registered once: the keys of an object. */
  predicate DistinctIds(l: seq<Listener>)
  {
    l == [] || (Fresh(l[1..], l[0].id) && DistinctIds(l[1..]))
  }

  /** `callbacks[id] = callback`: an id already there keeps its place and
      takes the new callback; a new one goes last. */
  function Register(l: seq<Listener>, id: real, cb: Callback): (r: seq<Listener>)
    ensures !Fresh(r, id)
    ensures Fresh(l, id) ==> r == l + [Listener(id, cb)]
    ensures forall x :: x != id && Fresh(l, x) ==> Fresh(r, x)
    ensures DistinctIds(l) ==> DistinctIds(r)
  {
    if l == [] then
      var r := [Listener(id, cb)];
      assert r[0].id == id;
      r
    else if l[0].id == id then
      var r := [Listener(id, cb)] + l[1..];
      assert r[0].id == id && r[1..] == l[1..];
      r
    else
      var rest := Register(l[1..], id, cb);
      var r := [l[0]] + rest;
      assert r[1..] == rest;
      var k :| 0 <= k < |rest| && rest[k].id == id;
      assert r[k + 1].id == id;
      assert forall x :: Fresh(l, x) ==> Fresh(l[1..], x) by {
        forall x, i | Fresh(l, x) && 0 <= i < |l[1..]|
          ensures l[1..][i].id != x
        {
          assert l[1..][i] == l[i + 1];
        }
      }
      r
  }

  /** `delete callbacks[id]`: the other listeners keep their order. */
  function Unregister(l: seq<Listener>, id: real): (r: seq<Listener>)
    ensures Fresh(r, id)
    ensures forall x :: x in r <==> x in l && x.id != id
    ensures forall x :: Fresh(l, x) ==> Fresh(r, x)
    ensures DistinctIds(l) ==> DistinctIds(r)
  {
    if l == [] then []
    else if l[0].id == id then Unregister(l[1..], id)
    else
      var rest := Unregister(l[1..], id);
      assert ([l[0]] + rest)[1..] == rest;
      [l[0]] + rest
  }

  /** The callbacks `Object.values(callbacks)` visits, in order. */
  function Callbacks(l: seq<Listener>): (r: seq<Callback>)
    ensures |r| == |l| && forall i :: 0 <= i < |l| ==> r[i] == l[i].callback
  {
    seq(|l|, i requires 0 <= i < |l| => l[i].callback)
  }

  /** Removing a listener leaves the others, and their order, untouched. */
  lemma {:induction false} UnregisterOthers(l: seq<Listener>, id: real)
    requires Fresh(l, id)
    ensures Unregister(l, id) == l
  {
    if l != [] {
      UnregisterOthers(l[1..], id);
    }
  }

  /** Adding a listener and removing it again leaves the registry as
      removing it alone would. */
  lemma {:induction false} RegisterThenRemove(l: seq<Listener>, id: real, cb: Callback)
    ensures Unregister(Register(l, id, cb), id) == Unregister(l, id)
  {
    if l != [] && l[0].id != id {
      RegisterThenRemove(l[1..], id, cb);
    }
  }

  // ---------------------------------------------------------------------
  // getBrowserInfo (lines 396-420).
  // ---------------------------------------------------------------------

  predicate IsDigit(c: char)
  {
    '0' <= c <= '9'
  }

  /** The longest run of digits at the start of s: what `\d+` takes. */
  function LeadingDigits(s: string): (d: string)
    ensures |d| <= |s| && d == s[..|d|]
    ensures forall i :: 0 <= i < |d| ==> IsDigit(d[i])
    ensures |d| < |s| ==> !IsDigit(s[|d|])
  {
    if s != [] && IsDigit(s[0]) then [s[0]] + LeadingDigits(s[1..]) else []
  }

  /** A match of `marker\d+` at position i. */
  predicate MatchesAt(s: string, marker: string, i: nat)
  {
    OccursAt(s, marker, i) && i + |marker| < |s| && IsDigit(s[i + |marker|])
  }

  /** The captured digits of the leftmost match of `marker(\d+)` at or after
      position i, if there is one. */
  function FirstMatch(s: string, marker: string, i: nat): (r: Option<string>)
    ensures r.Some? ==> r.value != [] && forall k :: 0 <= k < |r.value| ==> IsDigit(r.value[k])
    ensures r.Some? ==> exists j :: i <= j && MatchesAt(s, marker, j) && r.value == LeadingDigits(s[j + |marker|..])
    ensures r.None? <==> forall j :: i <= j ==> !MatchesAt(s, marker, j)
    decreases |s| - i
  {
    if i + |marker| >= |s| then
      assert forall j :: i <= j ==> !MatchesAt(s, marker, j);
      None
    else if MatchesAt(s, marker, i) then Some(LeadingDigits(s[i + |marker|..]))
    else
      var r := FirstMatch(s, marker, i + 1);
      assert forall j :: i <= j ==> (MatchesAt(s, marker, j) ==> i + 1 <= j);
      r
  }

  /** The leftmost match wins: no match starts before the one whose digits
      are returned. */
  lemma FirstMatchLeftmost(s: string, marker: string, i: nat, j: nat)
    requires i <= j && MatchesAt(s, marker, j)
    requires forall k :: i <= k < j ==> !MatchesAt(s, marker, k)
    ensures FirstMatch(s, marker, i) == Some(LeadingDigits(s[j + |marker|..]))
    decreases j - i
  {
    assert i + |marker| < |s|;
    if i < j {
      assert !MatchesAt(s, marker, i);
      FirstMatchLeftmost(s, marker, i + 1, j);
    }
  }

  /** The version: the captured digits, else 'Unknown'. */
  function VersionAfter(ua: string, marker: string): string
  {
    var m := FirstMatch(ua, marker, 0);
    if m.Some? then m.value else "Unknown"
  }

  datatype BrowserInfo = BrowserInfo(browser: string, version: string, userAgent: string)

  /** getBrowserInfo: the first of Chrome, Firefox, Safari and Edge that the
      user agent names, and the version after its marker. */
  function GetBrowserInfo(ua: string): (r: BrowserInfo)
    ensures r.userAgent == ua
    ensures Contains(ua, "Chrome") ==> r.browser == "Chrome" && r.version == VersionAfter(ua, "Chrome/")
    ensures !Contains(ua, "Chrome") && Contains(ua, "Firefox") ==>
      r.browser == "Firefox" && r.version == VersionAfter(ua, "Firefox/")
    ensures !Contains(ua, "Chrome") && !Contains(ua, "Firefox") && Contains(ua, "Safari") ==>
      r.browser == "Safari" && r.version == VersionAfter(ua, "Version/")
    ensures !Contains(ua, "Chrome") && !Contains(ua, "Firefox") && !Contains(ua, "Safari") && Contains(ua, "Edge") ==>
      r.browser == "Edge" && r.version == VersionAfter(ua, "Edge/")
    ensures !Contains(ua, "Chrome") && !Contains(ua, "Firefox") && !Contains(ua, "Safari") && !Contains(ua, "Edge") ==>
      r == BrowserInfo("Unknown", "Unknown", ua)
  {
    if Contains(ua, "Chrome") then BrowserInfo("Chrome", VersionAfter(ua, "Chrome/"), ua)
    else if Contains(ua, "Firefox") then BrowserInfo("Firefox", VersionAfter(ua, "Firefox/"), ua)
    else if Contains(ua, "Safari") then BrowserInfo("Safari", VersionAfter(ua, "Version/"), ua)
    else if Contains(ua, "Edge") then BrowserInfo("Edge", VersionAfter(ua, "Edge/"), ua)
    else BrowserInfo("Unknown", "Unknown", ua)
  }

  /** A version is either 'Unknown' or a non-empty run of digits. */
  lemma VersionShape(ua: string, marker: string)
    ensures var v := VersionAfter(ua, marker);
      v == "Unknown" || (v != [] && forall k :: 0 <= k < |v| ==> IsDigit(v[k]))
  {
  }

  /** Chrome wins over every other name that a user agent also carries:
      Edge's and Opera's user agents name Chrome too. */
  lemma ChromeFirst(u: string, t: string)
    ensures GetBrowserInfo(u + "Chrome" + t).browser == "Chrome"
  {
    assert OccursAt(u + "Chrome" + t, "Chrome", |u|) by {
      assert (u + "Chrome" + t)[|u|..|u| + 6] == "Chrome";
    }
  }

  // ---------------------------------------------------------------------
  // The manager.
  // ---------------------------------------------------------------------

  class PermissionManager {
    var permissions: Flags
    var listeners: seq<Listener>

    ghost predicate Valid()
      reads this
    {
      DistinctIds(listeners)
    }

    constructor()
      ensures Valid() && permissions == Initial() && listeners == []
    {
      permissions := Flags(false, false, true);
      listeners := [];
    }

    /** checkAllPermissions: each fulfilled check overwrites its flag, a
        rejected one leaves it; then every listener is called. */
    method CheckAllPermissions(results: seq<Settled>) returns (notified: seq<Callback>)
      requires |results| == 3
      modifies this
      ensures permissions == SettledUpTo(old(permissions), results, 3)
      ensures listeners == old(listeners) && notified == Callbacks(listeners)
    {
      var index := 0;
      while index < 3
        invariant index <= 3
        invariant permissions == SettledUpTo(old(permissions), results, index)
        invariant listeners == old(listeners)
      {
        if results[index].Fulfilled? {
          var value := results[index].value;
          if index == 0 {
            permissions := permissions.(microphone := value);
          } else if index == 1 {
            permissions := permissions.(tabCapture := value);
          } else {
            permissions := permissions.(storage := value);
          }
        }
        index := index + 1;
      }
      notified := NotifyPermissionChange();
    }

    /** getMissingPermissions. */
    method GetMissingPermissions() returns (missing: seq<string>)
      ensures missing == MissingOf(permissions)
    {
      missing := [];
      var i := 0;
      while i < 3
        invariant i <= 3
        invariant missing == MissingUpTo(permissions, i)
      {
        FlagOfName(permissions, i);
        if !FlagAt(permissions, i) {
          missing := missing + [PermissionNames[i]];
        }
        i := i + 1;
      }
      MissingUpToAll(permissions);
    }

    /** resetPermissions: every flag false, then the listeners are called. */
    method ResetPermissions() returns (notified: seq<Callback>)
      modifies this
      ensures permissions == Flags(false, false, false)
      ensures listeners == old(listeners) && notified == Callbacks(listeners)
    {
      permissions := Flags(false, false, false);
      notified := NotifyPermissionChange();
    }

    /** onPermissionChange: the callback is registered under the id, which
        is returned. */
    method OnPermissionChange(cb: Callback, id: real) returns (r: real)
      requires Valid()
      modifies this
      ensures Valid()
      ensures r == id && listeners == Register(old(listeners), id, cb)
      ensures permissions == old(permissions)
    {
      listeners := Register(listeners, id, cb);
      r := id;
    }

    /** removePermissionChangeListener. */
    method RemovePermissionChangeListener(id: real)
      requires Valid()
      modifies this
      ensures Valid()
      ensures listeners == Unregister(old(listeners), id)
      ensures permissions == old(permissions)
    {
      listeners := Unregister(listeners, id);
    }

    /** notifyPermissionChange: every registered callback, in order. */
    method NotifyPermissionChange() returns (notified: seq<Callback>)
      ensures notified == Callbacks(listeners)
    {
      notified := [];
      var i := 0;
      while i < |listeners|
        invariant i <= |listeners|
        invariant notified == Callbacks(listeners[..i])
      {
        notified := notified + [listeners[i].callback];
        i := i + 1;
      }
      assert listeners[..i] == listeners;
    }
  }

  /** The keys below index n whose flag is false, in key order. */
  function MissingUpTo(f: Flags, n: nat): (m: seq<string>)
    requires n <= 3
    ensures forall name :: name in m ==> name in PermissionNames[..n]
  {
    if n == 0 then []
    else MissingUpTo(f, n - 1) + (if !FlagAt(f, n - 1) then [PermissionNames[n - 1]] else [])
  }

  lemma MissingUpToAll(f: Flags)
    ensures MissingUpTo(f, 3) == MissingOf(f)
  {
    assert PermissionNames[0] == "microphone" && PermissionNames[1] == "tabCapture";
    assert PermissionNames[2] == "storage";
    assert MissingUpTo(f, 1) == (if !f.microphone then ["microphone"] else []);
    assert MissingUpTo(f, 2) == MissingUpTo(f, 1) + (if !f.tabCapture then ["tabCapture"] else []);
  }

  /** After a reset every key is missing. */
  lemma ResetAllMissing()
    ensures MissingOf(Flags(false, false, false)) == PermissionNames
  {
  }
}
