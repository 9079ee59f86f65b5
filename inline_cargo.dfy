/** The inline Cargo branch of `EventEngine.process`: the cargo count as the
    event gives it and the limpet count read from the first "drones" entry
    of the inventory. */
module InlineCargo {
  import opened PyText
  import opened PyJson
  import opened State
  import opened EngineBase

  /** `item.get("Name") == "drones"` */
  predicate IsDrones(item: Obj) {
    Get(item, "Name") == JStr("drones")
  }

  /** `int(item.get("Count", 0) or 0)`; `None` when `int` raises. */
  function CountOf(item: Obj): Option<int> {
    PyInt(Or(GetOr(item, "Count", JInt(0)), JInt(0)))
  }

  /** The limpet count the loop ends with: the count of the first drones
      entry, 0 when there is none; `None` when a non-dict entry is reached
      first or the count does not convert. */
  function LimpetsFrom(items: seq<Json>): (r: Option<int>)
    ensures items == [] ==> r == Some(0)
  {
    if items == [] then Some(0)
    else if !items[0].JObj? then None
    else if IsDrones(items[0].members) then CountOf(items[0].members)
    else LimpetsFrom(items[1..])
  }

  /** Entries before the first drones entry do not matter: the first one decides. */
  lemma {:induction false} FirstDronesWins(items: seq<Json>, i: nat)
    requires i < |items| && items[i].JObj? && IsDrones(items[i].members)
    requires forall j :: 0 <= j < i ==> items[j].JObj? && !IsDrones(items[j].members)
    ensures LimpetsFrom(items) == CountOf(items[i].members)
  {
    if i > 0 {
      FirstDronesWins(items[1..], i - 1);
    }
  }

  /** A well-formed inventory without drones gives 0 limpets. */
  lemma {:induction false} NoDronesNoLimpets(items: seq<Json>)
    requires forall j :: 0 <= j < |items| ==> items[j].JObj? && !IsDrones(items[j].members)
    ensures LimpetsFrom(items) == Some(0)
  {
    if items != [] {
      NoDronesNoLimpets(items[1..]);
    }
  }

  /** The loop over the inventory, stopping at the first drones entry. */
  method CountLimpets(items: seq<Json>) returns (r: Option<int>)
    ensures r == LimpetsFrom(items)
  {
    var i := 0;
    while i < |items|
      invariant i <= |items|
      invariant LimpetsFrom(items) == LimpetsFrom(items[i..])
    {
      assert items[i..][1..] == items[i + 1..];
      if !items[i].JObj? {
        return None;
      }
      if IsDrones(items[i].members) {
        return CountOf(items[i].members);
      }
      i := i + 1;
    }
    r := Some(0);
  }

  /** `f"Cargo: {cargo_count} (Limpets {limpets})"` */
  function CargoMessage(count: Json, limpets: int): string {
    "Cargo: " + Show(count) + " (Limpets " + IntToStr(limpets) + ")"
  }

  /** The cargo count is set first, so a raising inventory leaves it set and
      the limpets as they were; otherwise both are set and one message is sent. */
  method Cargo(e: EventEngine, ev: Obj) returns (flow: Flow, msgs: seq<string>)
    modifies e.state`cmdr
    ensures var items := RecordLoop(Or(GetOr(ev, "Inventory", JList([])), JList([])));
      var n := if items.Some? then LimpetsFrom(items.value) else None;
      var c := old(e.state.cmdr).(cargoCount := Get(ev, "Count"));
      if n.None? then e.state.cmdr == c && flow == Raised && msgs == []
      else (e.state.cmdr == c.(limpets := JInt(n.value)) && flow == Continue
        && msgs == [CargoMessage(Get(ev, "Count"), n.value)])
  {
    msgs := [];
    e.state.cmdr := e.state.cmdr.(cargoCount := Get(ev, "Count"));
    var items := RecordLoop(Or(GetOr(ev, "Inventory", JList([])), JList([])));
    if items.None? {
      return Raised, msgs;
    }
    var n := CountLimpets(items.value);
    if n.None? {
      return Raised, msgs;
    }
    e.state.cmdr := e.state.cmdr.(limpets := JInt(n.value));
    msgs := msgs + [CargoMessage(e.state.cmdr.cargoCount, n.value)];
    flow := Continue;
  }
}
