/** The inline FSSSignalDiscovered branch of `EventEngine.process`: the
    per-system signal list, one dict per signal key, updated in place when
    the key is seen again and bounded to the last 200 entries. */
module InlineSignals {
  import opened PyText
  import opened PyJson
  import opened State
  import opened EngineBase

  /** How many entries `system_signals` keeps. */
  const MaxSignals := 200

  /** What the branch reads from the event. */
  datatype SignalFacts = SignalFacts(
    name: Json, sigType: Json, uss: Json, threat: Json, isStation: Json, timeRemaining: Json, seen: Json)

  function SignalFactsOf(ev: Obj): SignalFacts {
    SignalFacts(
      Or(Or(Get(ev, "SignalName_Localised"), Get(ev, "SignalName")), JStr("")),
      Or(Or(Get(ev, "SignalType"), Get(ev, "SignalType_Localised")), JStr("")),
      Or(Or(Get(ev, "USSType_Localised"), Get(ev, "USSType")), JStr("")),
      Get(ev, "ThreatLevel"), Get(ev, "IsStation"), Get(ev, "TimeRemaining"),
      Or(Get(ev, "timestamp"), JStr("")))
  }

  /** `f"{sig_name}|{sig_type}|{uss}|{threat}|{is_station}"` */
  function SignalKey(f: SignalFacts): string {
    Show(f.name) + "|" + Show(f.sigType) + "|" + Show(f.uss) + "|" + Show(f.threat) + "|" + Show(f.isStation)
  }

  /** The dict the branch files under the key. */
  function SignalEntry(f: SignalFacts): Obj {
    [Member("Key", JStr(SignalKey(f))), Member("SignalName", f.name), Member("SignalType", f.sigType),
     Member("USSType", f.uss), Member("Category", JStr(Classify(f.name, f.uss, f.isStation, f.sigType))),
     Member("ThreatLevel", if IsInt(f.threat) then f.threat else JNull),
     Member("IsStation", if f.isStation.JBool? then f.isStation else JNull),
     Member("TimeRemaining", if IsNumber(f.timeRemaining) then f.timeRemaining else JNull),
     Member("LastSeen", if f.seen.JStr? then f.seen else JStr(""))]
  }

  /** `isinstance(s, dict) and s.get("Key") == key`; the bare category
      strings the exploration handler appends never match. */
  predicate HasKey(x: Json, key: string) {
    x.JObj? && Get(x.members, "Key") == JStr(key)
  }

  /** The first index at or after `i` whose entry has the key. */
  function FirstKeyFrom(sigs: seq<Json>, key: string, i: nat): (r: Option<nat>)
    requires i <= |sigs|
    ensures r.Some? ==> (i <= r.value < |sigs| && HasKey(sigs[r.value], key)
      && forall j :: i <= j < r.value ==> !HasKey(sigs[j], key))
    ensures r.None? ==> forall j :: i <= j < |sigs| ==> !HasKey(sigs[j], key)
    decreases |sigs| - i
  {
    if i == |sigs| then None
    else if HasKey(sigs[i], key) then Some(i)
    else FirstKeyFrom(sigs, key, i + 1)
  }

  /** The loop that looks for the key, stopping at the first match. */
  method FindSignal(sigs: seq<Json>, key: string) returns (idx: Option<nat>)
    ensures idx == FirstKeyFrom(sigs, key, 0)
  {
    var i := 0;
    while i < |sigs|
      invariant i <= |sigs|
      invariant FirstKeyFrom(sigs, key, 0) == FirstKeyFrom(sigs, key, i)
    {
      if HasKey(sigs[i], key) {
        return Some(i);
      }
      i := i + 1;
    }
    idx := None;
  }

  /** The last `MaxSignals` entries. */
  function Bounded(sigs: seq<Json>): (r: seq<Json>)
    ensures |r| <= MaxSignals
  {
    if |sigs| > MaxSignals then sigs[|sigs| - MaxSignals..] else sigs
  }

  /** The list after the branch: the first entry with the key updated with
      the new dict, else the new dict appended; then bounded. */
  function Upserted(sigs: seq<Json>, entry: Obj, key: string): seq<Json> {
    match FirstKeyFrom(sigs, key, 0)
    case Some(i) => Bounded(sigs[i := JObj(Update(sigs[i].members, entry))])
    case None => Bounded(sigs + [JObj(entry)])
  }

  method FssSignalDiscovered(e: EventEngine, ev: Obj)
    modifies e.state`sys
    ensures var f := SignalFactsOf(ev);
      e.state.sys == old(e.state.sys).(systemSignals := Upserted(old(e.state.sys.systemSignals), SignalEntry(f), SignalKey(f)))
  {
    var f := SignalFactsOf(ev);
    var key := SignalKey(f);
    var entry := SignalEntry(f);
    var sigs := e.state.sys.systemSignals;
    var idx := FindSignal(sigs, key);
    if idx.None? {
      sigs := sigs + [JObj(entry)];
    } else {
      sigs := sigs[idx.value := JObj(Update(sigs[idx.value].members, entry))];
    }
    if |sigs| > MaxSignals {
      sigs := sigs[|sigs| - MaxSignals..];
    }
    e.state.sys := e.state.sys.(systemSignals := sigs);
  }

  // ---------------------------------------------------------------------------
  // One entry per key

  /** How many entries carry the key. */
  function KeyCount(sigs: seq<Json>, key: string): nat {
    if sigs == [] then 0 else KeyCount(sigs[..|sigs| - 1], key) + (if HasKey(sigs[|sigs| - 1], key) then 1 else 0)
  }

  /** No key is filed twice. */
  ghost predicate Unique(sigs: seq<Json>) {
    forall key :: KeyCount(sigs, key) <= 1
  }

  lemma {:induction false} KeyCountAppend(sigs: seq<Json>, x: Json, key: string)
    ensures KeyCount(sigs + [x], key) == KeyCount(sigs, key) + (if HasKey(x, key) then 1 else 0)
  {
    assert (sigs + [x])[..|sigs|] == sigs;
  }

  lemma {:induction false} KeyCountConcat(a: seq<Json>, b: seq<Json>, key: string)
    ensures KeyCount(a + b, key) == KeyCount(a, key) + KeyCount(b, key)
    decreases |b|
  {
    if b == [] {
      assert a + b == a;
    } else {
      var n := |b| - 1;
      assert a + b == (a + b[..n]) + [b[n]];
      assert b == b[..n] + [b[n]];
      KeyCountAppend(a + b[..n], b[n], key);
      KeyCountAppend(b[..n], b[n], key);
      KeyCountConcat(a, b[..n], key);
    }
  }

  /** An entry with the key counts. */
  lemma {:induction false} KeyCountAt(sigs: seq<Json>, key: string, i: nat)
    requires i < |sigs| && HasKey(sigs[i], key)
    ensures KeyCount(sigs, key) >= 1
  {
    assert sigs == sigs[..i] + [sigs[i]] + sigs[i + 1..];
    KeyCountConcat(sigs[..i] + [sigs[i]], sigs[i + 1..], key);
    KeyCountAppend(sigs[..i], sigs[i], key);
  }

  /** Replacing an entry by one that carries the same keys keeps every count. */
  lemma {:induction false} KeyCountReplace(sigs: seq<Json>, i: nat, x: Json)
    requires i < |sigs| && x.JObj? && sigs[i].JObj?
    requires Get(x.members, "Key") == Get(sigs[i].members, "Key")
    ensures forall key :: KeyCount(sigs[i := x], key) == KeyCount(sigs, key)
  {
    forall key ensures KeyCount(sigs[i := x], key) == KeyCount(sigs, key) {
      assert sigs == sigs[..i] + [sigs[i]] + sigs[i + 1..];
      assert sigs[i := x] == sigs[..i] + [x] + sigs[i + 1..];
      KeyCountConcat(sigs[..i] + [sigs[i]], sigs[i + 1..], key);
      KeyCountConcat(sigs[..i] + [x], sigs[i + 1..], key);
      KeyCountAppend(sigs[..i], sigs[i], key);
      KeyCountAppend(sigs[..i], x, key);
    }
  }

  /** Dropping entries from the front never raises a count. */
  lemma KeyCountBounded(sigs: seq<Json>, key: string)
    ensures KeyCount(Bounded(sigs), key) <= KeyCount(sigs, key)
  {
    if |sigs| > MaxSignals {
      var n := |sigs| - MaxSignals;
      assert sigs == sigs[..n] + sigs[n..];
      KeyCountConcat(sigs[..n], sigs[n..], key);
    }
  }

  /** The entry the branch files carries the key it is filed under. */
  lemma EntryHasKey(f: SignalFacts)
    ensures Get(SignalEntry(f), "Key") == JStr(SignalKey(f))
  {
    GetAt(SignalEntry(f), 0);
  }

  /** The list never holds more than 200 entries after the branch, and if no
      key was filed twice before, none is filed twice after. */
  lemma UpsertKeepsUnique(sigs: seq<Json>, entry: Obj, key: string)
    requires Unique(sigs) && Get(entry, "Key") == JStr(key)
    ensures |Upserted(sigs, entry, key)| <= MaxSignals
    ensures Unique(Upserted(sigs, entry, key))
  {
    match FirstKeyFrom(sigs, key, 0)
    case Some(i) => UniqueAfterUpdate(sigs, i, entry, key);
    case None => UniqueAfterAppend(sigs, entry, key);
  }

  /** Updating the dict that already has the key keeps it under that key. */
  lemma UpdateKeepsKey(m: Obj, entry: Obj, key: string)
    requires Get(m, "Key") == JStr(key) && Get(entry, "Key") == JStr(key)
    ensures Get(Update(m, entry), "Key") == Get(m, "Key")
  {
    assert Has(entry, "Key");
  }

  lemma UniqueAfterUpdate(sigs: seq<Json>, i: nat, entry: Obj, key: string)
    requires Unique(sigs) && Get(entry, "Key") == JStr(key)
    requires i < |sigs| && HasKey(sigs[i], key)
    ensures Unique(Bounded(sigs[i := JObj(Update(sigs[i].members, entry))]))
  {
    var x := JObj(Update(sigs[i].members, entry));
    UpdateKeepsKey(sigs[i].members, entry, key);
    KeyCountReplace(sigs, i, x);
    var t := sigs[i := x];
    forall k ensures KeyCount(Bounded(t), k) <= 1 {
      KeyCountBounded(t, k);
      assert KeyCount(t, k) == KeyCount(sigs, k) <= 1;
    }
  }

  lemma UniqueAfterAppend(sigs: seq<Json>, entry: Obj, key: string)
    requires Unique(sigs) && Get(entry, "Key") == JStr(key)
    requires forall j :: 0 <= j < |sigs| ==> !HasKey(sigs[j], key)
    ensures Unique(Bounded(sigs + [JObj(entry)]))
  {
    forall k ensures KeyCount(Bounded(sigs + [JObj(entry)]), k) <= 1 {
      KeyCountAppend(sigs, JObj(entry), k);
      KeyCountBounded(sigs + [JObj(entry)], k);
      if k == key && KeyCount(sigs, key) > 0 {
        KeyCountPositive(sigs, key);
      }
    }
  }

  lemma {:induction false} KeyCountPositive(sigs: seq<Json>, key: string)
    requires KeyCount(sigs, key) > 0
    ensures exists i :: 0 <= i < |sigs| && HasKey(sigs[i], key)
  {
    var n := |sigs| - 1;
    if !HasKey(sigs[n], key) {
      KeyCountPositive(sigs[..n], key);
      var i :| 0 <= i < n && HasKey(sigs[..n][i], key);
      assert sigs[i] == sigs[..n][i];
    }
  }

  /** Within the bound, the signal is on the list afterwards, exactly once,
      with every member of the new dict. */
  lemma UpsertFiles(sigs: seq<Json>, entry: Obj, key: string)
    requires Unique(sigs) && |sigs| <= MaxSignals && Get(entry, "Key") == JStr(key)
    ensures var r := Upserted(sigs, entry, key);
      KeyCount(r, key) == 1
      && exists i :: (0 <= i < |r| && HasKey(r[i], key)
        && forall k :: Has(entry, k) ==> Get(r[i].members, k) == Get(entry, k))
  {
    UpsertKeepsUnique(sigs, entry, key);
    var r := Upserted(sigs, entry, key);
    match FirstKeyFrom(sigs, key, 0)
    case Some(i) =>
      var x := JObj(Update(sigs[i].members, entry));
      assert r == sigs[i := x];
      assert HasKey(r[i], key);
      KeyCountAt(r, key, i);
    case None =>
      var t := sigs + [JObj(entry)];
      var j := |t| - 1;
      assert t[j] == JObj(entry);
      if |t| > MaxSignals {
        assert r[|r| - 1] == t[j];
        KeyCountAt(r, key, |r| - 1);
        assert HasKey(r[|r| - 1], key);
      } else {
        assert r == t;
        KeyCountAt(r, key, j);
        assert HasKey(r[j], key);
      }
  }
}
