/** `EventEngine`'s own helpers: the signal classifier, the inventory list
    parsers, the external-intel hook, and the engine object that holds the
    game state and the reference tables. */
module EngineBase {
  import opened PyText
  import opened PyJson
  import opened Sources
  import PyDict
  import opened State
  import PlanetValues
  import ExoValues
  import ExternalIntel

  // ---------------------------------------------------------------------------
  // `_classify_system_signal`

  const Megaship := "Megaship"
  const Station := "Station"
  const Uss := "USS"
  const Phenomena := "Phenomena"
  const Other := "Other"

  /** The name fragments that mark a stellar phenomenon. */
  const PhenomenaWords: seq<string> := ["lagrange", "cloud", "anomal", "phenomen", "notable", "stellar"]

  /** `(signal_type or "")` is a string that trims and lower-cases to "megaship". */
  predicate IsMegashipType(signalType: Json) {
    signalType.JStr? && Lower(Strip(signalType.s)) == "megaship"
  }

  /** `isinstance(is_station, bool) and is_station` */
  predicate IsStationFlag(isStation: Json) {
    isStation == JBool(true)
  }

  /** Some phenomenon word occurs in the lower-cased name (a non-string name is ""). */
  predicate NamesPhenomenon(signalName: Json) {
    var sl := Lower(if signalName.JStr? then signalName.s else "");
    exists i :: 0 <= i < |PhenomenaWords| && Contains(sl, PhenomenaWords[i])
  }

  /** `_classify_system_signal(signal_name, uss_type, is_station, signal_type)`:
      the first test that holds, in the order Megaship, Station, USS,
      Phenomena, decides; nothing in it can raise. */
  function Classify(signalName: Json, ussType: Json, isStation: Json, signalType: Json): (r: string)
    ensures r == Megaship <==> IsMegashipType(signalType)
    ensures r == Station <==> !IsMegashipType(signalType) && IsStationFlag(isStation)
    ensures r == Uss <==> !IsMegashipType(signalType) && !IsStationFlag(isStation) && IsNonBlankStr(ussType)
    ensures r == Phenomena <==> (!IsMegashipType(signalType) && !IsStationFlag(isStation)
      && !IsNonBlankStr(ussType) && NamesPhenomenon(signalName))
    ensures r == Other <==> (!IsMegashipType(signalType) && !IsStationFlag(isStation)
      && !IsNonBlankStr(ussType) && !NamesPhenomenon(signalName))
  {
    if IsMegashipType(signalType) then Megaship
    else if IsStationFlag(isStation) then Station
    else if IsNonBlankStr(ussType) then Uss
    else if NamesPhenomenon(signalName) then Phenomena
    else Other
  }

  /** The exploration handler passes `SignalType` as the name, `SignalName` as
      the USS type and no signal type: its category is never "Megaship", and
      any non-blank signal name of a non-station makes it "USS". */
  lemma HandlerCategory(sigType: Json, sigName: Json, isStation: Json)
    ensures Classify(sigType, sigName, isStation, JNull) != Megaship
    ensures !IsStationFlag(isStation) && IsNonBlankStr(sigName) ==> Classify(sigType, sigName, isStation, JNull) == Uss
  {
  }

  // ---------------------------------------------------------------------------
  // `_parse_materials_category` and `_parse_shiplocker_items`

  /** What one accepted list entry contributes: the trimmed lower-cased name,
      the count and the display name. */
  datatype ItemRow = ItemRow(key: string, count: int, display: string)

  /** The trimmed `Name_Localised`, else the key with underscores as spaces in title case. */
  function DisplayName(rec: Obj, key: string): (r: string)
  {
    var nl := Get(rec, "Name_Localised");
    if nl.JStr? && Strip(nl.s) != [] then Strip(nl.s) else Title(ReplaceChar(key, '_', ' '))
  }

  /** A dict entry with a string Name that is not blank and an int Count is
      accepted; everything else is skipped. */
  function ItemEntry(rec: Json): (r: Option<ItemRow>)
    ensures r.Some? <==> (rec.JObj? && Get(rec.members, "Name").JStr? && IsInt(Get(rec.members, "Count"))
      && Lower(Strip(Get(rec.members, "Name").s)) != [])
    ensures r.Some? ==> (r.value.key == Lower(Strip(Get(rec.members, "Name").s))
      && r.value.count == IntOf(Get(rec.members, "Count"))
      && r.value.display == DisplayName(rec.members, r.value.key))
  {
    if !rec.JObj? then None
    else
      var nm := Get(rec.members, "Name");
      var cnt := Get(rec.members, "Count");
      if !nm.JStr? || !IsInt(cnt) then None
      else
        var key := Lower(Strip(nm.s));
        if key == [] then None else Some(ItemRow(key, IntOf(cnt), DisplayName(rec.members, key)))
  }

  /** What each entry of a list contributes, position by position. */
  function Rows(xs: seq<Json>): (r: seq<Option<ItemRow>>)
    ensures |r| == |xs|
  {
    seq(|xs|, i requires 0 <= i < |xs| => ItemEntry(xs[i]))
  }

  /** The display names after the first `n` rows: the last row of a key names it. */
  function LocUpTo(rows: seq<Option<ItemRow>>, n: nat): map<string, string>
    requires n <= |rows|
  {
    if n == 0 then map[]
    else
      LocStep(LocUpTo(rows, n - 1), rows[n - 1])
  }

  function LocStep(prev: map<string, string>, row: Option<ItemRow>): map<string, string> {
    match row
    case None => prev
    case Some(e) => prev[e.key := e.display]
  }

  function LastStep(prev: map<string, int>, row: Option<ItemRow>): map<string, int> {
    match row
    case None => prev
    case Some(e) => prev[e.key := e.count]
  }

  function SumStep(prev: map<string, int>, row: Option<ItemRow>): map<string, int> {
    match row
    case None => prev
    case Some(e) => prev[e.key := (if e.key in prev then prev[e.key] else 0) + e.count]
  }

  /** Counts after `n` rows as `_parse_materials_category` keeps them: the last write wins. */
  function LastCountsUpTo(rows: seq<Option<ItemRow>>, n: nat): map<string, int>
    requires n <= |rows|
  {
    if n == 0 then map[]
    else
      LastStep(LastCountsUpTo(rows, n - 1), rows[n - 1])
  }

  /** Counts after `n` rows as `_parse_shiplocker_items` keeps them: repeats add up. */
  function SumCountsUpTo(rows: seq<Option<ItemRow>>, n: nat): map<string, int>
    requires n <= |rows|
  {
    if n == 0 then map[]
    else
      SumStep(SumCountsUpTo(rows, n - 1), rows[n - 1])
  }

  /** Reference definitions: the row at `i` was accepted under key `k`, and
      the total of the counts of the first `n` rows accepted under it. */
  predicate AcceptedAt(rows: seq<Option<ItemRow>>, i: nat, k: string)
    requires i < |rows|
  {
    rows[i].Some? && rows[i].value.key == k
  }

  function CountTotal(rows: seq<Option<ItemRow>>, n: nat, k: string): int
    requires n <= |rows|
  {
    if n == 0 then 0
    else CountTotal(rows, n - 1, k) + (if AcceptedAt(rows, n - 1, k) then rows[n - 1].value.count else 0)
  }

  /** A key has a display name exactly when some accepted row carries it. */
  lemma {:induction false} LocKeys(rows: seq<Option<ItemRow>>, n: nat, k: string)
    requires n <= |rows|
    ensures k in LocUpTo(rows, n) <==> exists i :: 0 <= i < n && AcceptedAt(rows, i, k)
  {
    if n > 0 {
      LocKeys(rows, n - 1, k);
      if AcceptedAt(rows, n - 1, k) {
        assert k in LocUpTo(rows, n);
      }
    }
  }

  /** The materials counts know the same keys as the display names. */
  lemma {:induction false} LastCountsKeys(rows: seq<Option<ItemRow>>, n: nat, k: string)
    requires n <= |rows|
    ensures k in LastCountsUpTo(rows, n) <==> k in LocUpTo(rows, n)
  {
    if n > 0 {
      LastCountsKeys(rows, n - 1, k);
    }
  }

  /** The ship locker counts know the same keys as the display names. */
  lemma {:induction false} SumCountsKeys(rows: seq<Option<ItemRow>>, n: nat, k: string)
    requires n <= |rows|
    ensures k in SumCountsUpTo(rows, n) <==> k in LocUpTo(rows, n)
  {
    if n > 0 {
      SumCountsKeys(rows, n - 1, k);
    }
  }

  /** Materials keep the count of the last accepted row for a key. */
  lemma {:induction false} LastCountWins(rows: seq<Option<ItemRow>>, n: nat, i: nat, k: string)
    requires i < n <= |rows|
    requires AcceptedAt(rows, i, k)
    requires forall j :: i < j < n ==> !AcceptedAt(rows, j, k)
    ensures k in LastCountsUpTo(rows, n) && LastCountsUpTo(rows, n)[k] == rows[i].value.count
  {
    if n - 1 > i {
      LastCountWins(rows, n - 1, i, k);
      assert !AcceptedAt(rows, n - 1, k);
    }
  }

  /** The display name of a key is the one its last accepted row gives. */
  lemma {:induction false} LastDisplayWins(rows: seq<Option<ItemRow>>, n: nat, i: nat, k: string)
    requires i < n <= |rows|
    requires AcceptedAt(rows, i, k)
    requires forall j :: i < j < n ==> !AcceptedAt(rows, j, k)
    ensures k in LocUpTo(rows, n) && LocUpTo(rows, n)[k] == rows[i].value.display
  {
    if n - 1 > i {
      LastDisplayWins(rows, n - 1, i, k);
      assert !AcceptedAt(rows, n - 1, k);
    }
  }

  /** The ship locker adds up every accepted row of a key. */
  lemma {:induction false} SumCountsTotal(rows: seq<Option<ItemRow>>, n: nat, k: string)
    requires n <= |rows|
    ensures (if k in SumCountsUpTo(rows, n) then SumCountsUpTo(rows, n)[k] else 0) == CountTotal(rows, n, k)
  {
    if n > 0 {
      SumCountsTotal(rows, n - 1, k);
    }
  }

  /** `_parse_materials_category(items)`: counts and display names. */
  function MaterialsSpec(items: Json): (map<string, int>, map<string, string>) {
    if items.JList? then (LastCountsUpTo(Rows(items.items), |items.items|), LocUpTo(Rows(items.items), |items.items|))
    else (map[], map[])
  }

  /** `_parse_shiplocker_items(items)`: counts and display names. */
  function ShipLockerSpec(items: Json): (map<string, int>, map<string, string>) {
    if items.JList? then (SumCountsUpTo(Rows(items.items), |items.items|), LocUpTo(Rows(items.items), |items.items|))
    else (map[], map[])
  }

  /** The checks one list entry goes through in both parsers. */
  method ReadEntry(rec: Json) returns (e: Option<ItemRow>)
    ensures e == ItemEntry(rec)
  {
    if !rec.JObj? {
      return None;
    }
    var nm := Get(rec.members, "Name");
    var cnt := Get(rec.members, "Count");
    if !nm.JStr? || !IsInt(cnt) {
      return None;
    }
    var key := Lower(Strip(nm.s));
    if key == [] {
      return None;
    }
    var nl := Get(rec.members, "Name_Localised");
    var display := if nl.JStr? && Strip(nl.s) != [] then Strip(nl.s) else Title(ReplaceChar(key, '_', ' '));
    return Some(ItemRow(key, IntOf(cnt), display));
  }

  /** `_parse_materials_category(items)` */
  method ParseMaterialsCategory(items: Json) returns (counts: map<string, int>, loc: map<string, string>)
    ensures (counts, loc) == MaterialsSpec(items)
  {
    counts, loc := map[], map[];
    if !items.JList? {
      return;
    }
    var xs := items.items;
    ghost var rows := Rows(xs);
    var i := 0;
    while i < |xs|
      invariant i <= |xs|
      invariant counts == LastCountsUpTo(rows, i) && loc == LocUpTo(rows, i)
    {
      var e := ReadEntry(xs[i]);
      counts, loc := LastStep(counts, e), LocStep(loc, e);
      i := i + 1;
    }
  }

  /** `_parse_shiplocker_items(items)` */
  method ParseShipLockerItems(items: Json) returns (counts: map<string, int>, loc: map<string, string>)
    ensures (counts, loc) == ShipLockerSpec(items)
  {
    counts, loc := map[], map[];
    if !items.JList? {
      return;
    }
    var xs := items.items;
    ghost var rows := Rows(xs);
    var i := 0;
    while i < |xs|
      invariant i <= |xs|
      invariant counts == SumCountsUpTo(rows, i) && loc == LocUpTo(rows, i)
    {
      var e := ReadEntry(xs[i]);
      counts, loc := SumStep(counts, e), LocStep(loc, e);
      i := i + 1;
    }
  }

  // ---------------------------------------------------------------------------
  // The engine

  /** The address `_apply_external_intel` passes on: an int (or bool) as is, anything else None. */
  function IntelAddress(systemAddress: Json): (r: Json)
    ensures IsInt(systemAddress) ==> r == systemAddress
    ensures !IsInt(systemAddress) ==> r == JNull
  {
    if IsInt(systemAddress) then systemAddress else JNull
  }

  /** How an inline branch of `process` ends: it falls through to the
      handler chain, returns early (skipping the chain) or raises out of
      `process` with the state as far as it got. */
  datatype Flow = Continue | Return | Raised

  /** The intel store as the engine sees it: none, or its snapshot. */
  function IntelView(intel: ExternalIntel.Intel?): Option<ExternalIntel.Store>
    reads intel
  {
    if intel == null then None else Some(intel.Snap())
  }

  /** Whether `_apply_external_intel` consults the store at all. */
  predicate Consults(view: Option<ExternalIntel.Store>, systemName: Json) {
    Truthy(systemName) && view.Some?
  }

  /** The store after `_apply_external_intel`: reloaded if its file changed,
      when it is consulted; otherwise as it was. */
  function ViewAfter(view: Option<ExternalIntel.Store>, obs: Observed, systemName: Json): (r: Option<ExternalIntel.Store>)
    ensures r.Some? <==> view.Some?
    ensures !Consults(view, systemName) ==> r == view
  {
    if Consults(view, systemName) then Some(ExternalIntel.LoadSpec(view.value, false, obs)) else view
  }

  /** The list `_apply_external_intel` stores: empty for a falsy name or no
      store, else the reloaded store's answer for the name and the int
      address. */
  function PoisAfter(view: Option<ExternalIntel.Store>, obs: Observed, systemName: Json, systemAddress: Json): (r: seq<Json>)
    ensures !Consults(view, systemName) ==> r == []
  {
    if Consults(view, systemName) then
      ExternalIntel.PoisOf(ViewAfter(view, obs, systemName).value.tables, systemName, IntelAddress(systemAddress))
    else []
  }

  /** The contact part of a system change: no enemy alerts, no contacts, no
      current key; the current alert text and the last target stay. */
  function ClearContacts(c: Combat): (r: Combat)
    ensures r.ppEnemyAlerts == [] && r.combatContacts == map[] && r.combatCurrentKey == ""
    ensures r.currentContactAlert == c.currentContactAlert
    ensures r.lastTargetShip == c.lastTargetShip && r.lastTargetPilot == c.lastTargetPilot
  {
    c.(ppEnemyAlerts := [], combatContacts := map[], combatCurrentKey := "")
  }

  /** `EventEngine(state, planet_values, exo_values, external_intel)`; a missing
      table is `None`, a missing intel store `null`. */
  class EventEngine {
    const state: GameState
    const planets: Option<PlanetValues.Table>
    const exoValues: Option<ExoValues.Table>
    const intel: ExternalIntel.Intel?

    constructor (state: GameState, planets: Option<PlanetValues.Table>, exoValues: Option<ExoValues.Table>,
                 intel: ExternalIntel.Intel?)
      ensures this.state == state && this.planets == planets && this.exoValues == exoValues && this.intel == intel
    {
      this.state, this.planets, this.exoValues, this.intel := state, planets, exoValues, intel;
    }

    /** `_apply_external_intel(system_name, system_address)`; `obs` is the
        intel file as the reload sees it. Only `external_pois` and the store
        change. */
    method ApplyExternalIntel(obs: Observed, systemName: Json, systemAddress: Json)
      modifies state`sys, intel
      ensures IntelView(intel) == ViewAfter(old(IntelView(intel)), obs, systemName)
      ensures state.sys == old(state.sys).(externalPois := PoisAfter(old(IntelView(intel)), obs, systemName, systemAddress))
    {
      if !Truthy(systemName) || intel == null {
        state.sys := state.sys.(externalPois := []);
        return;
      }
      var pois := intel.GetPois(obs, systemName, IntelAddress(systemAddress));
      state.sys := state.sys.(externalPois := pois);
    }
  }
}
