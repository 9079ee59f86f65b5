/** The exploration handler: jumps and locations with the system
    description, jump hints, body scans and signals, codex names and
    exploration-data sales. Its `_pretty_token` is the same code as
    `clean_token` and is modelled by `Formatting.CleanToken`. */
module ExplorationHandler {
  import opened PyText
  import opened PyJson
  import opened Sources
  import opened State
  import opened EngineBase
  import ExternalIntel
  import Formatting
  import InlineSystem

  /** The kinds this handler claims. */
  const Kinds: seq<string> := ["FSDJump", "Location", "StartJump", "Scan", "SAAScanComplete", "FSSDiscoveryScan",
    "FSSSignalDiscovered", "FSSBodySignals", "SAASignalsFound", "CodexEntry", "MultiSellExplorationData"]

  predicate Claims(name: Json) {
    name.JStr? && name.s in Kinds
  }

  /** The groups the handler may change, the intel store after it, whether it
      claimed the event, and its notices. */
  datatype ExplorationStep = ExplorationStep(travel: Travel, sys: SystemData, meta: SystemMeta, survey: Survey,
    ledger: Ledger, view: Option<ExternalIntel.Store>, handled: bool, msgs: seq<string>)

  /** `event.get(f + "_Localised") or _pretty_token(event.get(f)) or previous`. */
  function Pick(ev: Obj, field: string, previous: Json): (r: Json)
    ensures Truthy(Get(ev, field + "_Localised")) ==> r == Get(ev, field + "_Localised")
    ensures !Truthy(Get(ev, field + "_Localised")) && Truthy(Formatting.CleanToken(Get(ev, field)))
      ==> r == Formatting.CleanToken(Get(ev, field))
    ensures !Truthy(Get(ev, field + "_Localised")) && !Truthy(Formatting.CleanToken(Get(ev, field)))
      ==> r == previous
  {
    Or(Or(Get(ev, field + "_Localised"), Formatting.CleanToken(Get(ev, field))), previous)
  }

  /** The four description fields both FSDJump and Location write. */
  function Describe(m: SystemMeta, ev: Obj): SystemMeta {
    m.(systemAllegiance := Pick(ev, "SystemAllegiance", m.systemAllegiance),
       systemGovernment := Pick(ev, "SystemGovernment", m.systemGovernment),
       systemEconomy := Pick(ev, "SystemEconomy", m.systemEconomy),
       systemSecurity := Pick(ev, "SystemSecurity", m.systemSecurity))
  }

  /** The population, faction and powerplay fields of an FSDJump, each kept
      when the event's value has the wrong shape. `PowerplayState` is what
      the source copies into the controlling power as well. */
  function JumpMeta(m: SystemMeta, ev: Obj): SystemMeta {
    var sf := Get(ev, "SystemFaction");
    var pw := Get(ev, "Powers");
    var prog := Get(ev, "PowerplayConflictProgress");
    m.(population := IntOr(Get(ev, "Population"), m.population),
       controllingFaction := if sf.JObj? then Get(sf.members, "Name") else m.controllingFaction,
       factions := if Get(ev, "Factions").JList? then Get(ev, "Factions") else m.factions,
       systemControllingPower := Or(Get(ev, "PowerplayState"), m.systemControllingPower),
       systemPowerplayState := Or(Get(ev, "PowerplayState"), m.systemPowerplayState),
       systemPowers := if pw.JList? then pw.items else m.systemPowers,
       systemConflictProgress := if prog.JObj? then prog.members else m.systemConflictProgress)
  }

  /** Where the commander is after an FSDJump. */
  function Jumped(t: Travel, ev: Obj): Travel {
    var newSys := Get(ev, "StarSystem");
    t.(visitedSystems := if InlineSystem.Changed(newSys, t.system) then t.visitedSystems + {Show(newSys)}
         else t.visitedSystems,
       system := Or(newSys, t.system), systemAddress := IntOr(Get(ev, "SystemAddress"), t.systemAddress),
       starClass := Or(Get(ev, "StarClass"), t.starClass))
  }

  /** Where the commander is after a Location. */
  function Located(t: Travel, ev: Obj): Travel {
    var sysName := Get(ev, "StarSystem");
    t.(system := if Truthy(sysName) then sysName else t.system,
       systemAddress := IntOr(Get(ev, "SystemAddress"), t.systemAddress),
       starClass := Or(Get(ev, "StarClass"), t.starClass))
  }

  /** The step of a jump or location: the travel and meta it leaves, and the
      intel applied for the new system and address. */
  function WithIntel(t: Travel, s: SystemData, m: SystemMeta, sv: Survey, l: Ledger,
                     view: Option<ExternalIntel.Store>, obs: Observed): ExplorationStep {
    ExplorationStep(t, s.(externalPois := PoisAfter(view, obs, t.system, t.systemAddress)), m, sv, l,
      ViewAfter(view, obs, t.system), true, [])
  }

  /** FSDJump: a new system clears the per-system data and the description
      (not the contacts) and is remembered as visited. */
  function FsdJumpSpec(t: Travel, s: SystemData, m: SystemMeta, sv: Survey, l: Ledger,
                       view: Option<ExternalIntel.Store>, obs: Observed, ev: Obj): ExplorationStep {
    var changed := InlineSystem.Changed(Get(ev, "StarSystem"), t.system);
    var s1 := if changed then EmptySystemData else s;
    var m1 := if changed then EmptySystemMeta else m;
    WithIntel(Jumped(t, ev), s1, JumpMeta(Describe(m1, ev), ev), sv, l, view, obs)
  }

  /** The bodies after a Scan: the raw event is stored under a non-blank body name. */
  function Scanned(s: SystemData, ev: Obj): SystemData {
    var bn := Get(ev, "BodyName");
    var bid := Get(ev, "BodyID");
    if !IsNonBlankStr(bn) then s
    else
      s.(bodyIdToName := if IsInt(bid) then s.bodyIdToName[IntOf(bid) := bn.s] else s.bodyIdToName,
         bodies := s.bodies[bn.s := ev])
  }

  /** `(bodies.get(body) or {})["SAAScanComplete"] = True` */
  function Mapped(s: SystemData, body: string): SystemData {
    var rec := if body in s.bodies then s.bodies[body] else [];
    s.(bodies := s.bodies[body := Put(rec, "SAAScanComplete", JBool(true))])
  }

  /** `bool(event.get("IsStation")) if "IsStation" in event else False` */
  function StationFlag(ev: Obj): Json {
    JBool(Has(ev, "IsStation") && Truthy(Get(ev, "IsStation")))
  }

  /** The category the handler appends: the classifier called with the
      signal type as the name and the signal name as the USS type. */
  function SignalCategory(ev: Obj): string {
    Classify(Get(ev, "SignalType"), Get(ev, "SignalName"), StationFlag(ev), JNull)
  }

  /** `len(x)` of a list under `event["Signals"][key]`, when `Signals` is a dict. */
  function SignalCount(ev: Obj, key: string): Option<int> {
    var sigs := Get(ev, "Signals");
    var v := if sigs.JObj? then Get(sigs.members, key) else JNull;
    if v.JList? then Some(|v.items|) else None
  }

  /** The trimmed genera of the dict entries with a non-blank string `Genus`, in order. */
  function GeneraOf(items: seq<Json>): (r: seq<string>)
    ensures forall g :: g in r ==> g != [] && Trimmed(g)
  {
    if items == [] then []
    else
      var n := |items| - 1;
      var g := if items[n].JObj? then Get(items[n].members, "Genus") else JNull;
      GeneraOf(items[..n]) + (if IsNonBlankStr(g) then [Strip(g.s)] else [])
  }

  /** SAASignalsFound with a list: the raw list is kept and, when some genus
      was found, the sorted distinct genera. */
  function SaaFound(s: SystemData, sv: Survey, body: string, ev: Obj): (SystemData, Survey) {
    var sigs := Get(ev, "Signals");
    if !sigs.JList? then (s, sv)
    else
      var g := GeneraOf(sigs.items);
      (if g != [] then s.(bioGenuses := s.bioGenuses[body := SortedSet(g)]) else s,
       sv.(saaSignals := sv.saaSignals[body := sigs.items]))
  }

  /** StartJump: the jump type and destination, each only when truthy. */
  function StartJumped(t: Travel, ev: Obj): Travel {
    t.(lastJumpType := Or(Get(ev, "JumpType"), t.lastJumpType),
       pendingSystem := Or(Get(ev, "StarSystem"), t.pendingSystem))
  }

  /** The last body after a Scan: set only from a non-blank name. */
  function ScanSurvey(sv: Survey, ev: Obj): Survey {
    var bn := Get(ev, "BodyName");
    if IsNonBlankStr(bn) then sv.(lastBody := bn) else sv
  }

  /** SAAScanComplete: the record of a non-blank body name is marked. */
  function MapComplete(s: SystemData, ev: Obj): SystemData {
    var body := Get(ev, "BodyName");
    if IsNonBlankStr(body) then Mapped(s, body.s) else s
  }

  /** FSSDiscoveryScan: the two counts, each only from an int. */
  function Discovered(s: SystemData, ev: Obj): SystemData {
    s.(systemBodyCount := IntOr(Get(ev, "BodyCount"), s.systemBodyCount),
       nonBodyCount := IntOr(Get(ev, "NonBodyCount"), s.nonBodyCount))
  }

  /** FSSSignalDiscovered: one category appended for a string signal type. */
  function Signalled(s: SystemData, ev: Obj): SystemData {
    if Get(ev, "SignalType").JStr? then s.(systemSignals := s.systemSignals + [JStr(SignalCategory(ev))]) else s
  }

  /** FSSBodySignals: the list lengths under a dict `Signals`, for a non-blank body. */
  function BodySignalled(s: SystemData, ev: Obj): SystemData {
    var body := Get(ev, "BodyName");
    if !IsNonBlankStr(body) then s
    else
      var bio, geo := SignalCount(ev, "Biological"), SignalCount(ev, "Geological");
      s.(bioSignals := if bio.Some? then s.bioSignals[body.s := JInt(bio.value)] else s.bioSignals,
         geoSignals := if geo.Some? then s.geoSignals[body.s := JInt(geo.value)] else s.geoSignals)
  }

  /** SAASignalsFound for a non-blank body. */
  function SaaSignalled(s: SystemData, sv: Survey, ev: Obj): (SystemData, Survey) {
    var body := Get(ev, "BodyName");
    if IsNonBlankStr(body) then SaaFound(s, sv, body.s, ev) else (s, sv)
  }

  /** CodexEntry: the trimmed localised name, else the raw one, when non-blank. */
  function Codexed(sv: Survey, ev: Obj): Survey {
    var entry := Or(Get(ev, "Name_Localised"), Get(ev, "Name"));
    if IsNonBlankStr(entry) then sv.(lastCodex := JStr(Strip(entry.s))) else sv
  }

  /** The exploration-sale notice. */
  function SoldMessage(total: int): string {
    "Exploration sold: " + IntCommas(total) + " cr"
  }

  /** MultiSellExplorationData: an int total is added and announced. */
  function Sold(l: Ledger, ev: Obj): (Ledger, seq<string>) {
    var total := Get(ev, "TotalEarnings");
    if IsInt(total) then
      (l.(sessionExplorationEarnings := l.sessionExplorationEarnings + IntOf(total)), [SoldMessage(IntOf(total))])
    else (l, [])
  }

  /** `exploration.handle` on values. */
  function ExplorationSpec(t: Travel, s: SystemData, m: SystemMeta, sv: Survey, l: Ledger,
                           view: Option<ExternalIntel.Store>, obs: Observed, name: Json, ev: Obj): (r: ExplorationStep)
    ensures r.handled <==> Claims(name)
  {
    var same := ExplorationStep(t, s, m, sv, l, view, true, []);
    if name == JStr("FSDJump") then FsdJumpSpec(t, s, m, sv, l, view, obs, ev)
    else if name == JStr("Location") then WithIntel(Located(t, ev), s, Describe(m, ev), sv, l, view, obs)
    else if name == JStr("StartJump") then same.(travel := StartJumped(t, ev))
    else if name == JStr("Scan") then same.(sys := Scanned(s, ev), survey := ScanSurvey(sv, ev))
    else if name == JStr("SAAScanComplete") then same.(sys := MapComplete(s, ev))
    else if name == JStr("FSSDiscoveryScan") then same.(sys := Discovered(s, ev))
    else if name == JStr("FSSSignalDiscovered") then same.(sys := Signalled(s, ev))
    else if name == JStr("FSSBodySignals") then same.(sys := BodySignalled(s, ev))
    else if name == JStr("SAASignalsFound") then
      var found := SaaSignalled(s, sv, ev);
      same.(sys := found.0, survey := found.1)
    else if name == JStr("CodexEntry") then same.(survey := Codexed(sv, ev))
    else if name == JStr("MultiSellExplorationData") then
      var sale := Sold(l, ev);
      same.(ledger := sale.0, msgs := sale.1)
    else ExplorationStep(t, s, m, sv, l, view, false, [])
  }

  /** An FSDJump to a different system leaves the per-system data (but for
      the intel list) and the description as a fresh state has them before
      the event's own fields are written, and adds the new name to the
      visited systems; a jump to the same system clears nothing. */
  lemma JumpClears(t: Travel, s: SystemData, m: SystemMeta, sv: Survey, l: Ledger,
                   view: Option<ExternalIntel.Store>, obs: Observed, ev: Obj)
    ensures var r := ExplorationSpec(t, s, m, sv, l, view, obs, JStr("FSDJump"), ev);
      var newSys := Get(ev, "StarSystem");
      var changed := Truthy(newSys) && !PyEq(newSys, t.system);
      (changed ==> (r.sys.(externalPois := []) == EmptySystemData
        && r.meta == JumpMeta(Describe(EmptySystemMeta, ev), ev)
        && r.travel.visitedSystems == t.visitedSystems + {Show(newSys)}))
      && (!changed ==> (r.sys.(externalPois := s.externalPois) == s
        && r.meta == JumpMeta(Describe(m, ev), ev) && r.travel.visitedSystems == t.visitedSystems))
      && r.survey == sv && r.ledger == l && r.msgs == []
  {
  }

  /** After an FSDJump the system is the event's when it is truthy, the
      previous one otherwise, and the intel is applied for that system. */
  lemma JumpTravel(t: Travel, s: SystemData, m: SystemMeta, sv: Survey, l: Ledger,
                   view: Option<ExternalIntel.Store>, obs: Observed, ev: Obj)
    ensures var r := ExplorationSpec(t, s, m, sv, l, view, obs, JStr("FSDJump"), ev);
      (Truthy(Get(ev, "StarSystem")) ==> r.travel.system == Get(ev, "StarSystem"))
      && (!Truthy(Get(ev, "StarSystem")) ==> r.travel.system == t.system)
      && (IsInt(Get(ev, "SystemAddress")) ==> r.travel.systemAddress == Get(ev, "SystemAddress"))
      && (!IsInt(Get(ev, "SystemAddress")) ==> r.travel.systemAddress == t.systemAddress)
      && r.view == ViewAfter(view, obs, r.travel.system)
      && r.sys.externalPois == PoisAfter(view, obs, r.travel.system, r.travel.systemAddress)
  {
  }

  /** The description chosen by FSDJump and Location: the localised field if
      truthy, else the cleaned raw token if truthy, else the value before. */
  lemma DescriptionChoice(ev: Obj, m: SystemMeta, field: string)
    requires field in ["SystemAllegiance", "SystemGovernment", "SystemEconomy", "SystemSecurity"]
    ensures var r := Describe(m, ev);
      var v := if field == "SystemAllegiance" then r.systemAllegiance
        else if field == "SystemGovernment" then r.systemGovernment
        else if field == "SystemEconomy" then r.systemEconomy else r.systemSecurity;
      var previous := if field == "SystemAllegiance" then m.systemAllegiance
        else if field == "SystemGovernment" then m.systemGovernment
        else if field == "SystemEconomy" then m.systemEconomy else m.systemSecurity;
      (Truthy(Get(ev, field + "_Localised")) ==> v == Get(ev, field + "_Localised"))
      && (!Truthy(Get(ev, field + "_Localised")) && Truthy(Formatting.CleanToken(Get(ev, field)))
        ==> v == Formatting.CleanToken(Get(ev, field)))
      && (!Truthy(Get(ev, field + "_Localised")) && !Truthy(Formatting.CleanToken(Get(ev, field)))
        ==> v == previous)
  {
  }

  /** FSDJump copies `PowerplayState` into the controlling power and takes
      powers only from a list and conflict progress only from a dict. */
  lemma JumpPowerplay(m: SystemMeta, ev: Obj)
    ensures var r := JumpMeta(m, ev);
      (Truthy(Get(ev, "PowerplayState")) ==> (r.systemControllingPower == Get(ev, "PowerplayState")
        && r.systemPowerplayState == Get(ev, "PowerplayState")))
      && (!Truthy(Get(ev, "PowerplayState")) ==> (r.systemControllingPower == m.systemControllingPower
        && r.systemPowerplayState == m.systemPowerplayState))
      && (Get(ev, "Powers").JList? ==> r.systemPowers == Get(ev, "Powers").items)
      && (!Get(ev, "Powers").JList? ==> r.systemPowers == m.systemPowers)
      && (Get(ev, "PowerplayConflictProgress").JObj? ==>
        r.systemConflictProgress == Get(ev, "PowerplayConflictProgress").members)
      && (!Get(ev, "PowerplayConflictProgress").JObj? ==> r.systemConflictProgress == m.systemConflictProgress)
  {
  }

  /** A Location sets the system only from a truthy name and never clears anything. */
  lemma LocationKeeps(t: Travel, s: SystemData, m: SystemMeta, sv: Survey, l: Ledger,
                      view: Option<ExternalIntel.Store>, obs: Observed, ev: Obj)
    ensures var r := ExplorationSpec(t, s, m, sv, l, view, obs, JStr("Location"), ev);
      r.sys.(externalPois := s.externalPois) == s && r.meta == Describe(m, ev)
      && r.survey == sv && r.ledger == l && r.travel.visitedSystems == t.visitedSystems
      && (Truthy(Get(ev, "StarSystem")) ==> r.travel.system == Get(ev, "StarSystem"))
      && (!Truthy(Get(ev, "StarSystem")) ==> r.travel.system == t.system)
  {
  }

  /** A Scan with a non-blank body name stores the raw event as that body's
      record, names the body id when it is an int, and never touches the
      body values; a blank name changes nothing. */
  lemma ScanStoresRaw(t: Travel, s: SystemData, m: SystemMeta, sv: Survey, l: Ledger,
                      view: Option<ExternalIntel.Store>, obs: Observed, ev: Obj)
    ensures var r := ExplorationSpec(t, s, m, sv, l, view, obs, JStr("Scan"), ev);
      var bn := Get(ev, "BodyName");
      r.survey.bodyValues == sv.bodyValues && r.meta == m && r.travel == t
      && (IsNonBlankStr(bn) ==> (r.sys.bodies == s.bodies[bn.s := ev] && r.survey.lastBody == bn
        && (IsInt(Get(ev, "BodyID")) ==> r.sys.bodyIdToName == s.bodyIdToName[IntOf(Get(ev, "BodyID")) := bn.s])))
      && (!IsNonBlankStr(bn) ==> r.sys == s && r.survey == sv)
  {
  }

  /** SAAScanComplete marks the body's record, creating it when missing and
      keeping its other fields; the other bodies stay. */
  lemma MappedMarks(s: SystemData, body: string, k: string)
    ensures var r := Mapped(s, body);
      body in r.bodies && Get(r.bodies[body], "SAAScanComplete") == JBool(true)
      && (k != "SAAScanComplete" && body in s.bodies ==> Get(r.bodies[body], k) == Get(s.bodies[body], k))
      && (forall b :: b != body ==> (b in r.bodies <==> b in s.bodies))
      && (forall b :: b != body && b in s.bodies ==> r.bodies[b] == s.bodies[b])
      && r.(bodies := s.bodies) == s
  {
  }

  /** FSSSignalDiscovered with a string type appends exactly one bare
      category string, never "Megaship" (the type is passed as the name). */
  lemma SignalAppended(t: Travel, s: SystemData, m: SystemMeta, sv: Survey, l: Ledger,
                       view: Option<ExternalIntel.Store>, obs: Observed, ev: Obj)
    requires Get(ev, "SignalType").JStr?
    ensures var r := ExplorationSpec(t, s, m, sv, l, view, obs, JStr("FSSSignalDiscovered"), ev);
      r.sys == s.(systemSignals := s.systemSignals + [JStr(SignalCategory(ev))])
      && SignalCategory(ev) != Megaship
  {
    HandlerCategory(Get(ev, "SignalType"), Get(ev, "SignalName"), StationFlag(ev));
  }

  /** A dict entry whose `Genus` is a non-blank string trimming to `g`. */
  predicate NamesGenus(item: Json, g: string) {
    item.JObj? && IsNonBlankStr(Get(item.members, "Genus")) && Strip(Get(item.members, "Genus").s) == g
  }

  /** The stored genera are in ascending order, each once, and exactly the
      non-blank genus names of the entries, trimmed. */
  lemma GeneraSorted(items: seq<Json>, g: string)
    ensures Ascending(SortedSet(GeneraOf(items)))
    ensures g in SortedSet(GeneraOf(items)) <==> exists i :: 0 <= i < |items| && NamesGenus(items[i], g)
  {
    GeneraNamed(items, g);
  }

  /** A genus is collected exactly when some entry names it. */
  lemma {:induction false} GeneraNamed(items: seq<Json>, g: string)
    ensures g in GeneraOf(items) <==> exists i :: 0 <= i < |items| && NamesGenus(items[i], g)
  {
    if items != [] {
      var n := |items| - 1;
      GeneraNamed(items[..n], g);
      GeneraLast(items, g);
      assert forall i :: 0 <= i < n ==> items[..n][i] == items[i];
    }
  }

  /** The last entry adds its own genus, if any, to those before it. */
  lemma GeneraLast(items: seq<Json>, g: string)
    requires items != []
    ensures g in GeneraOf(items) <==> g in GeneraOf(items[..|items| - 1]) || NamesGenus(items[|items| - 1], g)
  {
  }

  /** Exploration sales add an int total to their own ledger and send one
      notice; anything else adds nothing. */
  lemma SaleAdds(t: Travel, s: SystemData, m: SystemMeta, sv: Survey, l: Ledger,
                 view: Option<ExternalIntel.Store>, obs: Observed, ev: Obj)
    ensures var r := ExplorationSpec(t, s, m, sv, l, view, obs, JStr("MultiSellExplorationData"), ev);
      var total := Get(ev, "TotalEarnings");
      (IsInt(total) ==> (r.ledger.sessionExplorationEarnings == l.sessionExplorationEarnings + IntOf(total)
        && r.msgs == [SoldMessage(IntOf(total))]))
      && (!IsInt(total) ==> r.ledger == l && r.msgs == [])
      && r.ledger.(sessionExplorationEarnings := l.sessionExplorationEarnings) == l
  {
  }

  /** A kind the handler does not claim changes nothing and sends nothing. */
  lemma ExplorationDeclines(t: Travel, s: SystemData, m: SystemMeta, sv: Survey, l: Ledger,
                            view: Option<ExternalIntel.Store>, obs: Observed, name: Json, ev: Obj)
    requires !Claims(name)
    ensures ExplorationSpec(t, s, m, sv, l, view, obs, name, ev) == ExplorationStep(t, s, m, sv, l, view, false, [])
  {
  }

  /** The genus loop of SAASignalsFound. */
  method CollectGenera(items: seq<Json>) returns (genera: seq<string>)
    ensures genera == GeneraOf(items)
  {
    genera := [];
    var i := 0;
    while i < |items|
      invariant i <= |items|
      invariant genera == GeneraOf(items[..i])
    {
      assert items[..i + 1][..i] == items[..i];
      var sig := items[i];
      if sig.JObj? {
        var g := Get(sig.members, "Genus");
        if g.JStr? && Strip(g.s) != [] {
          genera := genera + [Strip(g.s)];
        }
      }
      i := i + 1;
    }
    assert items[..|items|] == items;
  }

  /** The FSDJump branch. */
  method FsdJump(e: EventEngine, obs: Observed, ev: Obj)
    modifies e.state`travel, e.state`sys, e.state`meta, e.intel
    ensures var r := FsdJumpSpec(old(e.state.travel), old(e.state.sys), old(e.state.meta), e.state.survey,
      e.state.ledger, old(IntelView(e.intel)), obs, ev);
      e.state.travel == r.travel && e.state.sys == r.sys && e.state.meta == r.meta && IntelView(e.intel) == r.view
  {
    var newSys := Get(ev, "StarSystem");
    if Truthy(newSys) && !PyEq(newSys, e.state.travel.system) {
      e.state.sys := EmptySystemData;
      e.state.meta := EmptySystemMeta;
      e.state.travel := e.state.travel.(visitedSystems := e.state.travel.visitedSystems + {Show(newSys)});
    }
    e.state.travel := e.state.travel.(system := Or(newSys, e.state.travel.system));
    e.state.travel := e.state.travel.(systemAddress := IntOr(Get(ev, "SystemAddress"), e.state.travel.systemAddress));
    e.state.travel := e.state.travel.(starClass := Or(Get(ev, "StarClass"), e.state.travel.starClass));
    e.state.meta := JumpMeta(Describe(e.state.meta, ev), ev);
    e.ApplyExternalIntel(obs, e.state.travel.system, e.state.travel.systemAddress);
  }

  /** The Location branch (the handler's, after the inline one). */
  method Location(e: EventEngine, obs: Observed, ev: Obj)
    modifies e.state`travel, e.state`sys, e.state`meta, e.intel
    ensures var r := WithIntel(Located(old(e.state.travel), ev), old(e.state.sys), Describe(old(e.state.meta), ev),
      e.state.survey, e.state.ledger, old(IntelView(e.intel)), obs);
      e.state.travel == r.travel && e.state.sys == r.sys && e.state.meta == r.meta && IntelView(e.intel) == r.view
  {
    var sysName := Get(ev, "StarSystem");
    if Truthy(sysName) {
      e.state.travel := e.state.travel.(system := sysName);
    }
    e.state.travel := e.state.travel.(systemAddress := IntOr(Get(ev, "SystemAddress"), e.state.travel.systemAddress));
    e.state.travel := e.state.travel.(starClass := Or(Get(ev, "StarClass"), e.state.travel.starClass));
    e.state.meta := Describe(e.state.meta, ev);
    e.ApplyExternalIntel(obs, e.state.travel.system, e.state.travel.systemAddress);
  }

  /** The Scan branch. */
  method Scan(e: EventEngine, ev: Obj)
    modifies e.state`sys, e.state`survey
    ensures e.state.sys == Scanned(old(e.state.sys), ev) && e.state.survey == ScanSurvey(old(e.state.survey), ev)
  {
    var bn := Get(ev, "BodyName");
    var bid := Get(ev, "BodyID");
    if IsInt(bid) && IsNonBlankStr(bn) {
      e.state.sys := e.state.sys.(bodyIdToName := e.state.sys.bodyIdToName[IntOf(bid) := bn.s]);
    }
    if IsNonBlankStr(bn) {
      e.state.survey := e.state.survey.(lastBody := bn);
      e.state.sys := e.state.sys.(bodies := e.state.sys.bodies[bn.s := ev]);
    }
  }

  /** The FSSBodySignals branch. */
  method BodySignals(e: EventEngine, ev: Obj)
    modifies e.state`sys
    ensures e.state.sys == BodySignalled(old(e.state.sys), ev)
  {
    var body := Get(ev, "BodyName");
    if !IsNonBlankStr(body) {
      return;
    }
    var bio, geo := SignalCount(ev, "Biological"), SignalCount(ev, "Geological");
    if bio.Some? {
      e.state.sys := e.state.sys.(bioSignals := e.state.sys.bioSignals[body.s := JInt(bio.value)]);
    }
    if geo.Some? {
      e.state.sys := e.state.sys.(geoSignals := e.state.sys.geoSignals[body.s := JInt(geo.value)]);
    }
  }

  /** The SAASignalsFound branch. */
  method SaaSignals(e: EventEngine, ev: Obj)
    modifies e.state`sys, e.state`survey
    ensures (e.state.sys, e.state.survey) == SaaSignalled(old(e.state.sys), old(e.state.survey), ev)
  {
    var body := Get(ev, "BodyName");
    if !IsNonBlankStr(body) {
      return;
    }
    var sigs := Get(ev, "Signals");
    if sigs.JList? {
      e.state.survey := e.state.survey.(saaSignals := e.state.survey.saaSignals[body.s := sigs.items]);
      var genera := CollectGenera(sigs.items);
      if genera != [] {
        e.state.sys := e.state.sys.(bioGenuses := e.state.sys.bioGenuses[body.s := SortedSet(genera)]);
      }
    }
  }

  /** The StartJump branch. */
  method StartJump(e: EventEngine, ev: Obj)
    modifies e.state`travel
    ensures e.state.travel == StartJumped(old(e.state.travel), ev)
  {
    var jumpType := Get(ev, "JumpType");
    if Truthy(jumpType) {
      e.state.travel := e.state.travel.(lastJumpType := jumpType);
    }
    var dest := Get(ev, "StarSystem");
    if Truthy(dest) {
      e.state.travel := e.state.travel.(pendingSystem := dest);
    }
  }

  /** The SAAScanComplete branch. */
  method SaaScanComplete(e: EventEngine, ev: Obj)
    modifies e.state`sys
    ensures e.state.sys == MapComplete(old(e.state.sys), ev)
  {
    var body := Get(ev, "BodyName");
    if IsNonBlankStr(body) {
      e.state.sys := Mapped(e.state.sys, body.s);
    }
  }

  /** The FSSDiscoveryScan branch. */
  method DiscoveryScan(e: EventEngine, ev: Obj)
    modifies e.state`sys
    ensures e.state.sys == Discovered(old(e.state.sys), ev)
  {
    var bc, nbc := Get(ev, "BodyCount"), Get(ev, "NonBodyCount");
    if IsInt(bc) {
      e.state.sys := e.state.sys.(systemBodyCount := bc);
    }
    if IsInt(nbc) {
      e.state.sys := e.state.sys.(nonBodyCount := nbc);
    }
  }

  /** The FSSSignalDiscovered branch. */
  method SignalDiscovered(e: EventEngine, ev: Obj)
    modifies e.state`sys
    ensures e.state.sys == Signalled(old(e.state.sys), ev)
  {
    if Get(ev, "SignalType").JStr? {
      var cls := Classify(Get(ev, "SignalType"), Get(ev, "SignalName"), StationFlag(ev), JNull);
      e.state.sys := e.state.sys.(systemSignals := e.state.sys.systemSignals + [JStr(cls)]);
    }
  }

  /** The CodexEntry branch (the handler's, after the inline one). */
  method Codex(e: EventEngine, ev: Obj)
    modifies e.state`survey
    ensures e.state.survey == Codexed(old(e.state.survey), ev)
  {
    var entry := Or(Get(ev, "Name_Localised"), Get(ev, "Name"));
    if IsNonBlankStr(entry) {
      e.state.survey := e.state.survey.(lastCodex := JStr(Strip(entry.s)));
    }
  }

  /** The MultiSellExplorationData branch. */
  method SellExplorationData(e: EventEngine, ev: Obj) returns (msgs: seq<string>)
    modifies e.state`ledger
    ensures (e.state.ledger, msgs) == Sold(old(e.state.ledger), ev)
  {
    msgs := [];
    var total := Get(ev, "TotalEarnings");
    if IsInt(total) {
      e.state.ledger := e.state.ledger.(sessionExplorationEarnings :=
        e.state.ledger.sessionExplorationEarnings + IntOf(total));
      msgs := [SoldMessage(IntOf(total))];
    }
  }

  /** `exploration.handle(engine, name, event, msgs)`; `msgs` are the notices it appends. */
  method Handle(e: EventEngine, obs: Observed, name: Json, ev: Obj) returns (handled: bool, msgs: seq<string>)
    modifies e.state`travel, e.state`sys, e.state`meta, e.state`survey, e.state`ledger, e.intel
    ensures ExplorationStep(e.state.travel, e.state.sys, e.state.meta, e.state.survey, e.state.ledger,
      IntelView(e.intel), handled, msgs)
      == ExplorationSpec(old(e.state.travel), old(e.state.sys), old(e.state.meta), old(e.state.survey),
        old(e.state.ledger), old(IntelView(e.intel)), obs, name, ev)
  {
    msgs := [];
    handled := Claims(name);
    if name == JStr("FSDJump") {
      FsdJump(e, obs, ev);
    } else if name == JStr("Location") {
      Location(e, obs, ev);
    } else if name == JStr("Scan") {
      Scan(e, ev);
    } else if name == JStr("FSSBodySignals") {
      BodySignals(e, ev);
    } else if name == JStr("SAASignalsFound") {
      SaaSignals(e, ev);
    } else if name == JStr("StartJump") {
      StartJump(e, ev);
    } else if name == JStr("SAAScanComplete") {
      SaaScanComplete(e, ev);
    } else if name == JStr("FSSDiscoveryScan") {
      DiscoveryScan(e, ev);
    } else if name == JStr("FSSSignalDiscovered") {
      SignalDiscovered(e, ev);
    } else if name == JStr("CodexEntry") {
      Codex(e, ev);
    } else if name == JStr("MultiSellExplorationData") {
      msgs := SellExplorationData(e, ev);
    }
  }
}
