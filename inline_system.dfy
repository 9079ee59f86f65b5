/** The inline branches of `process` that follow the commander from system
    to system: Location, StartJump and Powerplay. */
module InlineSystem {
  import opened PyText
  import opened PyJson
  import opened Sources
  import opened State
  import opened EngineBase
  import ExternalIntel

  /** `new_sys and new_sys != state.system`: a system change. */
  predicate Changed(newSys: Json, system: Json) {
    Truthy(newSys) && !PyEq(newSys, system)
  }

  /** `(event.get("SystemFaction", {}) or {}).get("Name")`; `None` when the
      value is truthy but not a dict, whose `.get` raises. */
  function FactionName(ev: Obj): (r: Option<Json>)
    ensures !Truthy(Get(ev, "SystemFaction")) ==> r == Some(JNull)
    ensures r.None? <==> Truthy(Get(ev, "SystemFaction")) && !Get(ev, "SystemFaction").JObj?
    ensures Get(ev, "SystemFaction").JObj? ==> r == Some(Get(Get(ev, "SystemFaction").members, "Name"))
  {
    var cf := Or(Get(ev, "SystemFaction"), JObj([]));
    if cf.JObj? then Some(Get(cf.members, "Name")) else None
  }

  /** Each character of a string as a one-character string. */
  function Chars(s: string): (r: seq<string>)
    ensures |r| == |s|
  {
    seq(|s|, i requires 0 <= i < |s| => [s[i]])
  }

  /** `[p for p in (event.get("Powers") or []) if isinstance(p, str)]`: a list
      keeps its strings, a string gives its characters, a dict its keys; a
      truthy number or bool is not iterable and raises. */
  function PowersOf(pw: Json): (r: Option<seq<string>>)
    ensures !Truthy(pw) ==> r == Some([])
    ensures pw.JList? ==> r == Some(StrItems(pw.items))
    ensures r.None? <==> Truthy(pw) && (pw.JInt? || pw.JBool? || pw.JReal?)
  {
    if !Truthy(pw) then Some([])
    else
      match pw
      case JList(items) => Some(StrItems(items))
      case JStr(s) => Some(Chars(s))
      case JObj(ms) => Some(Keys(Items(ms)))
      case _ => None
  }

  /** What one entry of `PowerplayConflictProgress` contributes: a dict with
      a string Power and a number ConflictProgress gives that power's progress
      as a float. */
  function ProgressEntry(rec: Json): (r: Option<Member>)
    ensures r.Some? ==> r.value.val.JReal?
  {
    if rec.JObj? && Get(rec.members, "Power").JStr? && IsNumber(Get(rec.members, "ConflictProgress")) then
      Some(Member(Get(rec.members, "Power").s, JReal(NumVal(Get(rec.members, "ConflictProgress")))))
    else None
  }

  /** `prog` after the first `n` entries: each accepted entry is written over
      any earlier one of its power (the later member wins). */
  function ProgressUpTo(items: seq<Json>, n: nat): Obj
    requires n <= |items|
  {
    if n == 0 then []
    else
      match ProgressEntry(items[n - 1])
      case None => ProgressUpTo(items, n - 1)
      case Some(m) => ProgressUpTo(items, n - 1) + [m]
  }

  /** The progress map for the iterated value: only a list's dict entries can
      contribute; a truthy number or bool raises. */
  function ConflictProgressOf(v: Json): (r: Option<Obj>)
    ensures !Truthy(v) ==> r == Some([])
    ensures v.JList? ==> r == Some(ProgressUpTo(v.items, |v.items|))
    ensures r.None? <==> Truthy(v) && (v.JInt? || v.JBool? || v.JReal?)
  {
    if !Truthy(v) then Some([])
    else
      match v
      case JList(items) => Some(ProgressUpTo(items, |items|))
      case JStr(_) => Some([])
      case JObj(_) => Some([])
      case _ => None
  }

  /** A power has progress exactly when some accepted entry names it. */
  lemma {:induction false} ProgressHas(items: seq<Json>, n: nat, k: string)
    requires n <= |items|
    ensures Has(ProgressUpTo(items, n), k) <==>
      exists i :: 0 <= i < n && ProgressEntry(items[i]).Some? && ProgressEntry(items[i]).value.key == k
  {
    if n > 0 {
      ProgressHas(items, n - 1, k);
      var prev := ProgressUpTo(items, n - 1);
      match ProgressEntry(items[n - 1])
      case None =>
      case Some(m) =>
        HasConcat(prev, [m], k);
        assert [m][0] == m;
        assert Has([m], k) <==> m.key == k;
    }
  }

  /** Every stored progress is a float. */
  lemma {:induction false} ProgressReal(items: seq<Json>, n: nat)
    requires n <= |items|
    ensures forall i :: 0 <= i < |ProgressUpTo(items, n)| ==> ProgressUpTo(items, n)[i].val.JReal?
  {
    if n > 0 {
      ProgressReal(items, n - 1);
    }
  }

  /** The `PowerplayConflictProgress` loop. */
  method CollectProgress(items: seq<Json>) returns (prog: Obj)
    ensures prog == ProgressUpTo(items, |items|)
  {
    prog := [];
    var i := 0;
    while i < |items|
      invariant i <= |items|
      invariant prog == ProgressUpTo(items, i)
    {
      var m := ProgressEntry(items[i]);
      if m.Some? {
        prog := prog + [m.value];
      }
      i := i + 1;
    }
  }

  /** How far the faction block of a Location gets: 0 when reading the
      faction name raises, 1 when iterating Powers raises, 2 when iterating
      the conflict progress raises, 3 when it completes. */
  function LocationStage(ev: Obj): (r: nat)
    ensures r <= 3
  {
    if FactionName(ev).None? then 0
    else if PowersOf(Or(Get(ev, "Powers"), JList([]))).None? then 1
    else if ConflictProgressOf(Or(Get(ev, "PowerplayConflictProgress"), JList([]))).None? then 2
    else 3
  }

  /** The system description a Location writes: allegiance and population
      as given, the other three from their localised form if that is truthy. */
  function Described(m: SystemMeta, ev: Obj): SystemMeta {
    m.(systemAllegiance := Get(ev, "SystemAllegiance"),
       systemGovernment := Or(Get(ev, "SystemGovernment_Localised"), Get(ev, "SystemGovernment")),
       systemEconomy := Or(Get(ev, "SystemEconomy_Localised"), Get(ev, "SystemEconomy")),
       systemSecurity := Or(Get(ev, "SystemSecurity_Localised"), Get(ev, "SystemSecurity")),
       population := Get(ev, "Population"))
  }

  /** The faction and powerplay block of a Location, up to the point where it raises. */
  function FactionBlock(m: SystemMeta, ev: Obj): (r: SystemMeta)
    ensures r.(controllingFaction := m.controllingFaction, factions := m.factions,
      systemControllingPower := m.systemControllingPower, systemPowerplayState := m.systemPowerplayState,
      systemPowers := m.systemPowers, systemConflictProgress := m.systemConflictProgress) == m
  {
    var cf := FactionName(ev);
    if cf.None? then m
    else
      var m1 := m.(controllingFaction := cf.value, factions := Or(Get(ev, "Factions"), JList([])),
        systemControllingPower := Get(ev, "ControllingPower"), systemPowerplayState := Get(ev, "PowerplayState"));
      var pw := PowersOf(Or(Get(ev, "Powers"), JList([])));
      if pw.None? then m1
      else
        var m2 := m1.(systemPowers := StrJsons(pw.value));
        var prog := ConflictProgressOf(Or(Get(ev, "PowerplayConflictProgress"), JList([])));
        if prog.None? then m2 else m2.(systemConflictProgress := prog.value)
  }

  /** The Location notice. */
  function LocationMessages(system: Json): (r: seq<string>)
    ensures Truthy(system) ==> r == ["Location: " + Show(system)]
    ensures !Truthy(system) ==> r == []
  {
    if Truthy(system) then ["Location: " + Show(system)] else []
  }

  /** The groups a system-level inline branch replaces, the intel store after
      it, how the branch ends and its notices. */
  datatype SystemStep = SystemStep(travel: Travel, sys: SystemData, meta: SystemMeta, combat: Combat,
    view: Option<ExternalIntel.Store>, flow: Flow, msgs: seq<string>)

  /** The Location branch on values: a change of system clears the
      per-system data, the description and the contacts; the description and
      the faction block are written over what is left; the intel is applied
      only when the faction block completes. */
  function LocationSpec(t: Travel, s: SystemData, m: SystemMeta, c: Combat, view: Option<ExternalIntel.Store>,
                        obs: Observed, ev: Obj): SystemStep
  {
    var newSys := GetOr(ev, "StarSystem", t.system);
    var changed := Changed(newSys, t.system);
    var t1 := t.(system := newSys, inHyperspace := false, jumpStarClass := JNull);
    var s1 := if changed then EmptySystemData else s;
    var m1 := FactionBlock(Described(if changed then EmptySystemMeta else m, ev), ev);
    var c1 := if changed then ClearContacts(c) else c;
    if LocationStage(ev) < 3 then SystemStep(t1, s1, m1, c1, view, Raised, [])
    else
      SystemStep(t1, s1.(externalPois := PoisAfter(view, obs, newSys, Get(ev, "SystemAddress"))), m1, c1,
        ViewAfter(view, obs, newSys), Continue, LocationMessages(newSys))
  }

  /** A Location that names a different system leaves no bodies, organisms,
      signals or contacts behind; one that does not keeps them all. Either
      way only the intel list of the per-system data can differ from what
      the clearing left. */
  lemma LocationClears(t: Travel, s: SystemData, m: SystemMeta, c: Combat, view: Option<ExternalIntel.Store>,
                       obs: Observed, ev: Obj)
    ensures var r := LocationSpec(t, s, m, c, view, obs, ev);
      var changed := Changed(GetOr(ev, "StarSystem", t.system), t.system);
      (changed ==> r.sys.(externalPois := []) == EmptySystemData && r.combat == ClearContacts(c))
      && (!changed ==> r.sys.(externalPois := s.externalPois) == s && r.combat == c)
  {
  }

  /** The branch completes, runs the intel and falls through to the handler
      chain exactly when the faction block does not raise. */
  lemma LocationFlow(t: Travel, s: SystemData, m: SystemMeta, c: Combat, view: Option<ExternalIntel.Store>,
                     obs: Observed, ev: Obj)
    ensures var r := LocationSpec(t, s, m, c, view, obs, ev);
      (r.flow == Continue <==> LocationStage(ev) == 3) && (r.flow != Continue ==> r.view == view && r.msgs == [])
  {
  }

  /** Replaying the same Location, with the intel file as it was, changes
      nothing more: the system is already current, so nothing is cleared,
      and every field it writes gets the value it already has. */
  lemma {:induction false} LocationIdempotent(t: Travel, s: SystemData, m: SystemMeta, c: Combat,
                                              view: Option<ExternalIntel.Store>, obs: Observed, ev: Obj)
    ensures var r := LocationSpec(t, s, m, c, view, obs, ev);
      LocationSpec(r.travel, r.sys, r.meta, r.combat, r.view, obs, ev) == r
  {
    var r := LocationSpec(t, s, m, c, view, obs, ev);
    var newSys := GetOr(ev, "StarSystem", t.system);
    assert GetOr(ev, "StarSystem", newSys) == newSys;
    assert !Changed(newSys, newSys);
    if view.Some? && Truthy(newSys) && LocationStage(ev) == 3 {
      ExternalIntel.LoadIdempotent(view.value, obs);
    }
  }

  /** The faction and powerplay block of a Location, up to the point where it
      raises. */
  method SetLocationFactions(e: EventEngine, ev: Obj) returns (flow: Flow)
    modifies e.state`meta
    ensures e.state.meta == FactionBlock(old(e.state.meta), ev)
    ensures flow == (if LocationStage(ev) == 3 then Continue else Raised)
  {
    var cf := FactionName(ev);
    if cf.None? {
      return Raised;
    }
    e.state.meta := e.state.meta.(controllingFaction := cf.value, factions := Or(Get(ev, "Factions"), JList([])),
      systemControllingPower := Get(ev, "ControllingPower"), systemPowerplayState := Get(ev, "PowerplayState"));
    var pw := PowersOf(Or(Get(ev, "Powers"), JList([])));
    if pw.None? {
      return Raised;
    }
    e.state.meta := e.state.meta.(systemPowers := StrJsons(pw.value));
    var v := Or(Get(ev, "PowerplayConflictProgress"), JList([]));
    if v.JInt? || v.JBool? || v.JReal? {
      return Raised;
    }
    var prog: Obj := [];
    if v.JList? {
      prog := CollectProgress(v.items);
    }
    e.state.meta := e.state.meta.(systemConflictProgress := prog);
    flow := Continue;
  }

  /** The Location branch. */
  method Location(e: EventEngine, obs: Observed, ev: Obj) returns (flow: Flow, msgs: seq<string>)
    modifies e.state`travel, e.state`sys, e.state`meta, e.state`combat, e.intel
    ensures var r := LocationSpec(old(e.state.travel), old(e.state.sys), old(e.state.meta), old(e.state.combat),
      old(IntelView(e.intel)), obs, ev);
      e.state.travel == r.travel && e.state.sys == r.sys && e.state.meta == r.meta && e.state.combat == r.combat
      && IntelView(e.intel) == r.view && flow == r.flow && msgs == r.msgs
  {
    var newSys := GetOr(ev, "StarSystem", e.state.travel.system);
    var changed := Changed(newSys, e.state.travel.system);
    if changed {
      e.state.sys := EmptySystemData;
      e.state.meta := EmptySystemMeta;
      e.state.combat := ClearContacts(e.state.combat);
    }
    e.state.travel := e.state.travel.(system := newSys, inHyperspace := false, jumpStarClass := JNull);
    e.state.meta := Described(e.state.meta, ev);
    flow := SetLocationFactions(e, ev);
    if flow == Raised {
      return flow, [];
    }
    e.ApplyExternalIntel(obs, newSys, Get(ev, "SystemAddress"));
    msgs := LocationMessages(newSys);
  }

  /** `event.get("JumpType") == "Hyperspace"` */
  predicate IsHyperspace(ev: Obj) {
    Get(ev, "JumpType") == JStr("Hyperspace")
  }

  /** The StartJump notice: the destination and its star class. */
  function JumpMessages(target: Json, starClass: Json): (r: seq<string>)
    ensures Truthy(target) ==> r == ["Jumping to: " + Show(target) + " (" + Show(starClass) + ")"]
    ensures !Truthy(target) ==> r == []
  {
    if Truthy(target) then ["Jumping to: " + Show(target) + " (" + Show(starClass) + ")"] else []
  }

  /** The StartJump branch on values: a Hyperspace jump always clears, shows
      the target (if any) as the current system, enters hyperspace and
      applies the intel for that system without an address; other jumps
      change nothing. */
  function StartJumpSpec(t: Travel, s: SystemData, m: SystemMeta, c: Combat, view: Option<ExternalIntel.Store>,
                         obs: Observed, ev: Obj): SystemStep
  {
    if !IsHyperspace(ev) then SystemStep(t, s, m, c, view, Continue, [])
    else
      var target := Get(ev, "StarSystem");
      var starClass := Get(ev, "StarClass");
      var system := Or(target, t.system);
      SystemStep(t.(system := system, inHyperspace := true, jumpStarClass := starClass),
        EmptySystemData.(externalPois := PoisAfter(view, obs, system, JNull)), EmptySystemMeta, ClearContacts(c),
        ViewAfter(view, obs, system), Continue, JumpMessages(target, starClass))
  }

  /** A Hyperspace StartJump leaves nothing of the old system but its name
      when there is no target, and is in hyperspace afterwards; a Location
      that then names the target does not clear again. */
  lemma StartJumpClears(t: Travel, s: SystemData, m: SystemMeta, c: Combat, view: Option<ExternalIntel.Store>,
                        obs: Observed, ev: Obj, arrival: Obj)
    requires IsHyperspace(ev)
    requires Truthy(Get(ev, "StarSystem")) && Get(arrival, "StarSystem") == Get(ev, "StarSystem")
    ensures var r := StartJumpSpec(t, s, m, c, view, obs, ev);
      r.sys.(externalPois := []) == EmptySystemData && r.meta == EmptySystemMeta && r.combat == ClearContacts(c)
      && r.travel.inHyperspace && r.travel.system == Get(ev, "StarSystem")
      && !Changed(GetOr(arrival, "StarSystem", r.travel.system), r.travel.system)
  {
    assert GetOr(arrival, "StarSystem", Get(ev, "StarSystem")) == Get(ev, "StarSystem");
  }

  /** The StartJump branch. */
  method StartJump(e: EventEngine, obs: Observed, ev: Obj) returns (msgs: seq<string>)
    modifies e.state`travel, e.state`sys, e.state`meta, e.state`combat, e.intel
    ensures var r := StartJumpSpec(old(e.state.travel), old(e.state.sys), old(e.state.meta), old(e.state.combat),
      old(IntelView(e.intel)), obs, ev);
      e.state.travel == r.travel && e.state.sys == r.sys && e.state.meta == r.meta && e.state.combat == r.combat
      && IntelView(e.intel) == r.view && msgs == r.msgs
  {
    msgs := [];
    if !IsHyperspace(ev) {
      return;
    }
    var target := Get(ev, "StarSystem");
    var starClass := Get(ev, "StarClass");
    e.state.sys := EmptySystemData;
    e.state.meta := EmptySystemMeta;
    e.state.combat := ClearContacts(e.state.combat);
    var system := Or(target, e.state.travel.system);
    e.state.travel := e.state.travel.(system := system, inHyperspace := true, jumpStarClass := starClass);
    e.ApplyExternalIntel(obs, system, JNull);
    msgs := JumpMessages(target, starClass);
  }

  /** The inline Powerplay notice. */
  function PledgeMessages(power: Json, rank: Json, merits: Json): (r: seq<string>)
    ensures Truthy(power) ==> r == ["PP: " + Show(power) + " (Rank " + Show(rank) + ", Merits " + Show(merits) + ")"]
    ensures !Truthy(power) ==> r == []
  {
    if Truthy(power) then ["PP: " + Show(power) + " (Rank " + Show(rank) + ", Merits " + Show(merits) + ")"] else []
  }

  /** The inline Powerplay branch: the three pledge fields are replaced as
      given, a missing one becoming None; the handler's fields stay. */
  method Powerplay(e: EventEngine, ev: Obj) returns (msgs: seq<string>)
    modifies e.state`pledge
    ensures e.state.pledge == old(e.state.pledge).(ppPower := Get(ev, "Power"), ppRank := Get(ev, "Rank"),
      ppMerits := Get(ev, "Merits"))
    ensures msgs == PledgeMessages(Get(ev, "Power"), Get(ev, "Rank"), Get(ev, "Merits"))
  {
    e.state.pledge := e.state.pledge.(ppPower := Get(ev, "Power"), ppRank := Get(ev, "Rank"),
      ppMerits := Get(ev, "Merits"));
    msgs := PledgeMessages(e.state.pledge.ppPower, e.state.pledge.ppRank, e.state.pledge.ppMerits);
  }
}
