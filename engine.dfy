/** `EventEngine.process`: one journal event applied to the game state. The
    event name is recorded, an int `Credits` is stored (and then no inline
    branch runs), the inline branch for the event's kind runs, and unless it
    returned early or raised, the handler chain offers the event to the
    inventory, exploration, exobiology, powerplay and misc handlers in that
    order until one claims it. */
module Engine {
  import opened PyText
  import opened PyJson
  import opened Sources
  import opened State
  import opened EngineBase
  import ExternalIntel
  import PlanetValues
  import ExoValues
  import InlineSystem
  import InlineCombat
  import InlineCargo
  import InlineBodies
  import InlineSignals
  import InlineExo
  import InventoryHandler
  import ExplorationHandler
  import ExobioHandler
  import PowerplayHandler
  import MiscHandler

  /** The whole game state as a value. */
  datatype World = World(lastEvent: Json, cmdr: CommanderInfo, travel: Travel, sys: SystemData, meta: SystemMeta,
    combat: Combat, pledge: Pledge, survey: Survey, ledger: Ledger, inventory: Inventory)

  function Snap(s: GameState): World
    reads s
  {
    World(s.lastEvent, s.cmdr, s.travel, s.sys, s.meta, s.combat, s.pledge, s.survey, s.ledger, s.inventory)
  }

  /** The state after an inline branch, the intel store after it, how it
      ended and its notices. */
  datatype Step = Step(world: World, view: Option<ExternalIntel.Store>, flow: Flow, msgs: seq<string>)

  /** The kinds with an inline branch in `process`. */
  const InlineKinds: seq<string> := ["Location", "StartJump", "ShipTargeted", "Powerplay", "Cargo", "Scan",
    "SAAScanComplete", "FSSDiscoveryScan", "FSSSignalDiscovered", "FSSBodySignals", "SAASignalsFound",
    "ScanOrganic", "CodexEntry", "SellOrganicData"]

  predicate HasInlineBranch(name: Json) {
    name.JStr? && name.s in InlineKinds
  }

  // ---------------------------------------------------------------------------
  // The inline branches, one function each, on the whole state

  function Located(w: World, view: Option<ExternalIntel.Store>, obs: Observed, ev: Obj): Step {
    var r := InlineSystem.LocationSpec(w.travel, w.sys, w.meta, w.combat, view, obs, ev);
    Step(w.(travel := r.travel, sys := r.sys, meta := r.meta, combat := r.combat), r.view, r.flow, r.msgs)
  }

  function JumpStarted(w: World, view: Option<ExternalIntel.Store>, obs: Observed, ev: Obj): Step {
    var r := InlineSystem.StartJumpSpec(w.travel, w.sys, w.meta, w.combat, view, obs, ev);
    Step(w.(travel := r.travel, sys := r.sys, meta := r.meta, combat := r.combat), r.view, Continue, r.msgs)
  }

  function Targeted(w: World, view: Option<ExternalIntel.Store>, ev: Obj): Step {
    var r := InlineCombat.TargetStep(w.combat, w.pledge.ppPower, w.meta.systemControllingPower, InlineCombat.TargetOf(ev));
    Step(w.(combat := r.combat), view, r.flow, r.msgs)
  }

  function Pledged(w: World, view: Option<ExternalIntel.Store>, ev: Obj): Step {
    Step(w.(pledge := w.pledge.(ppPower := Get(ev, "Power"), ppRank := Get(ev, "Rank"), ppMerits := Get(ev, "Merits"))),
      view, Continue, InlineSystem.PledgeMessages(Get(ev, "Power"), Get(ev, "Rank"), Get(ev, "Merits")))
  }

  function Loaded(w: World, view: Option<ExternalIntel.Store>, ev: Obj): Step {
    var items := RecordLoop(Or(GetOr(ev, "Inventory", JList([])), JList([])));
    var n := if items.Some? then InlineCargo.LimpetsFrom(items.value) else None;
    var c := w.cmdr.(cargoCount := Get(ev, "Count"));
    if n.None? then Step(w.(cmdr := c), view, Raised, [])
    else Step(w.(cmdr := c.(limpets := JInt(n.value))), view, Continue, [InlineCargo.CargoMessage(Get(ev, "Count"), n.value)])
  }

  function Scanned(w: World, view: Option<ExternalIntel.Store>, planets: Option<PlanetValues.Table>, ev: Obj): Step {
    var r := InlineBodies.ScanSpec(w.sys, planets, InlineBodies.ScanFactsOf(ev));
    Step(w.(sys := r.sys), view, r.flow, [])
  }

  function Mapped(w: World, view: Option<ExternalIntel.Store>, planets: Option<PlanetValues.Table>, ev: Obj): Step {
    var body := NormStr(Get(ev, "BodyName"));
    if body == [] || body !in w.sys.bodies then Step(w, view, Continue, [])
    else
      var st := InlineBodies.SaaRecordStep(w.sys.bodies[body], planets);
      Step(w.(sys := w.sys.(bodies := w.sys.bodies[body := st.rec])), view, if st.raised then Raised else Continue, [])
  }

  function Discovered(w: World, view: Option<ExternalIntel.Store>, ev: Obj): Step {
    var bc, nb := Get(ev, "BodyCount"), Get(ev, "NonBodyCount");
    Step(w.(sys := w.sys.(systemBodyCount := if IsInt(bc) then bc else w.sys.systemBodyCount,
                          nonBodyCount := if IsInt(nb) then nb else w.sys.nonBodyCount)), view, Continue, [])
  }

  function Signalled(w: World, view: Option<ExternalIntel.Store>, ev: Obj): Step {
    var f := InlineSignals.SignalFactsOf(ev);
    Step(w.(sys := w.sys.(systemSignals := InlineSignals.Upserted(w.sys.systemSignals, InlineSignals.SignalEntry(f),
      InlineSignals.SignalKey(f)))), view, Continue, [])
  }

  function BodySignalled(w: World, view: Option<ExternalIntel.Store>, ev: Obj): Step {
    var r := InlineBodies.FssSignalsSpec(w.sys, InlineBodies.SignalFactsOf(ev));
    Step(w.(sys := r.sys), view, r.flow, [])
  }

  function SaaSignalled(w: World, view: Option<ExternalIntel.Store>, ev: Obj): Step {
    var r := InlineBodies.SaaSignalsSpec(w.sys, InlineBodies.SignalFactsOf(ev));
    Step(w.(sys := r.sys), view, r.flow, [])
  }

  function Sampled(w: World, view: Option<ExternalIntel.Store>, exoValues: Option<ExoValues.Table>, ev: Obj): Step {
    var r := InlineExo.ScanOrganicSpec(w.sys.exo, exoValues, InlineExo.OrganicFactsOf(ev));
    Step(w.(sys := w.sys.(exo := r.exo)), view, r.flow, [])
  }

  function Codexed(w: World, view: Option<ExternalIntel.Store>, exoValues: Option<ExoValues.Table>, ev: Obj): Step {
    var f := InlineExo.CodexFactsOf(ev);
    var r := InlineExo.CodexEntrySpec(w.sys.exo, exoValues, f);
    Step(w.(sys := w.sys.(exo := r.exo), ledger := InlineExo.Voucher(w.ledger, f.voucher)), view, r.flow, [])
  }

  function Sold(w: World, view: Option<ExternalIntel.Store>, ev: Obj): Step {
    var r := InlineExo.SellSpec(w.ledger, Or(Get(ev, "BioData"), JList([])));
    Step(w.(ledger := r.ledger), view, r.flow, r.msgs)
  }

  /** What the inline branches see besides the state and the event: the two
      value tables and the intel file as a reload would observe it. */
  datatype Env = Env(planets: Option<PlanetValues.Table>, exoValues: Option<ExoValues.Table>, obs: Observed)

  /** The branch a kind selects in the `elif` chain. */
  datatype InlineKind = Location | StartJump | ShipTargeted | Powerplay | Cargo | Scan | SaaScanComplete
    | FssDiscoveryScan | FssSignalDiscovered | FssBodySignals | SaaSignalsFound | ScanOrganic | CodexEntry
    | SellOrganicData | NoBranch

  /** The `elif` test that matches the event name. */
  function KindOf(name: Json): InlineKind {
    if name == JStr("Location") then Location
    else if name == JStr("StartJump") then StartJump
    else if name == JStr("ShipTargeted") then ShipTargeted
    else if name == JStr("Powerplay") then Powerplay
    else if name == JStr("Cargo") then Cargo
    else if name == JStr("Scan") then Scan
    else if name == JStr("SAAScanComplete") then SaaScanComplete
    else if name == JStr("FSSDiscoveryScan") then FssDiscoveryScan
    else if name == JStr("FSSSignalDiscovered") then FssSignalDiscovered
    else if name == JStr("FSSBodySignals") then FssBodySignals
    else if name == JStr("SAASignalsFound") then SaaSignalsFound
    else if name == JStr("ScanOrganic") then ScanOrganic
    else if name == JStr("CodexEntry") then CodexEntry
    else if name == JStr("SellOrganicData") then SellOrganicData
    else NoBranch
  }

  /** The `elif` chain tests exactly the kinds listed in `InlineKinds`. */
  lemma KindOfListed(name: Json)
    ensures KindOf(name) == NoBranch <==> !HasInlineBranch(name)
  {
  }

  predicate TravelKind(k: InlineKind) {
    k == Location || k == StartJump || k == Powerplay
  }

  predicate ContactKind(k: InlineKind) {
    k == ShipTargeted || k == Cargo
  }

  predicate BodyKind(k: InlineKind) {
    k == Scan || k == SaaScanComplete || k == FssDiscoveryScan || k == FssBodySignals || k == SaaSignalsFound
  }

  predicate ExoKind(k: InlineKind) {
    k == ScanOrganic || k == CodexEntry || k == SellOrganicData
  }

  /** The Location, StartJump and Powerplay branches. */
  function TravelBranch(w: World, view: Option<ExternalIntel.Store>, env: Env, k: InlineKind, ev: Obj): Step {
    if k == Location then Located(w, view, env.obs, ev)
    else if k == StartJump then JumpStarted(w, view, env.obs, ev)
    else Pledged(w, view, ev)
  }

  /** The ShipTargeted and Cargo branches. */
  function ContactBranch(w: World, view: Option<ExternalIntel.Store>, k: InlineKind, ev: Obj): Step {
    if k == ShipTargeted then Targeted(w, view, ev) else Loaded(w, view, ev)
  }

  /** The body branches: Scan, SAAScanComplete, FSSDiscoveryScan, FSSBodySignals, SAASignalsFound. */
  function BodyBranch(w: World, view: Option<ExternalIntel.Store>, env: Env, k: InlineKind, ev: Obj): Step {
    if k == Scan then Scanned(w, view, env.planets, ev)
    else if k == SaaScanComplete then Mapped(w, view, env.planets, ev)
    else if k == FssDiscoveryScan then Discovered(w, view, ev)
    else if k == FssBodySignals then BodySignalled(w, view, ev)
    else SaaSignalled(w, view, ev)
  }

  /** The exobiology branches: ScanOrganic, CodexEntry, SellOrganicData. */
  function ExoBranch(w: World, view: Option<ExternalIntel.Store>, env: Env, k: InlineKind, ev: Obj): Step {
    if k == ScanOrganic then Sampled(w, view, env.exoValues, ev)
    else if k == CodexEntry then Codexed(w, view, env.exoValues, ev)
    else Sold(w, view, ev)
  }

  /** Stage one of `process`: the branch the event's kind selects; a kind
      without one falls through with nothing changed. */
  function InlineSpec(w: World, view: Option<ExternalIntel.Store>, env: Env, k: InlineKind, ev: Obj): (r: Step)
    ensures k == NoBranch ==> r == Step(w, view, Continue, [])
  {
    if TravelKind(k) then TravelBranch(w, view, env, k, ev)
    else if ContactKind(k) then ContactBranch(w, view, k, ev)
    else if BodyKind(k) then BodyBranch(w, view, env, k, ev)
    else if ExoKind(k) then ExoBranch(w, view, env, k, ev)
    else if k == FssSignalDiscovered then Signalled(w, view, ev)
    else Step(w, view, Continue, [])
  }

  // ---------------------------------------------------------------------------
  // The handler chain

  /** The state after the chain, the intel store, whether a handler claimed
      the event, and the handler's notices. */
  datatype Chained = Chained(world: World, view: Option<ExternalIntel.Store>, handled: bool, msgs: seq<string>)

  /** Whether some handler claims the kind. */
  predicate Claimed(name: Json) {
    InventoryHandler.Claims(name) || ExplorationHandler.Claims(name) || ExobioHandler.Claims(name)
    || name == JStr("Powerplay") || MiscHandler.Claims(name)
  }

  function AfterInventory(w: World, view: Option<ExternalIntel.Store>, name: Json, ev: Obj): Chained {
    var r := InventoryHandler.InventorySpec(w.cmdr, w.inventory, name, ev);
    Chained(w.(cmdr := r.cmdr, inventory := r.inventory), view, r.handled, r.msgs)
  }

  function AfterExploration(w: World, view: Option<ExternalIntel.Store>, obs: Observed, name: Json, ev: Obj): Chained {
    var r := ExplorationHandler.ExplorationSpec(w.travel, w.sys, w.meta, w.survey, w.ledger, view, obs, name, ev);
    Chained(w.(travel := r.travel, sys := r.sys, meta := r.meta, survey := r.survey, ledger := r.ledger), r.view,
      r.handled, r.msgs)
  }

  function AfterExobio(w: World, view: Option<ExternalIntel.Store>, name: Json, ev: Obj): Chained {
    var r := ExobioHandler.ExobioSpec(w.survey, w.ledger, name, ev);
    Chained(w.(survey := r.survey, ledger := r.ledger), view, r.handled, r.msgs)
  }

  function AfterPowerplay(w: World, view: Option<ExternalIntel.Store>, name: Json, ev: Obj): Chained {
    var r := PowerplayHandler.PowerplaySpec(w.pledge, name, ev);
    Chained(w.(pledge := r.pledge), view, r.handled, r.msgs)
  }

  function AfterMisc(w: World, view: Option<ExternalIntel.Store>, name: Json, ev: Obj): Chained {
    var r := MiscHandler.MiscSpec(w.ledger, w.combat, name, ev);
    Chained(w.(ledger := r.ledger, combat := r.combat), view, r.handled, r.msgs)
  }

  /** A handler as a function of the whole state. */
  type Handler = (World, Option<ExternalIntel.Store>, Observed, Json, Obj) -> Chained

  /** `(inventory.handle, exploration.handle, exobio.handle, powerplay.handle, misc.handle)` */
  const Handlers: seq<Handler> := [
    (w, view, obs, name, ev) => AfterInventory(w, view, name, ev),
    (w, view, obs, name, ev) => AfterExploration(w, view, obs, name, ev),
    (w, view, obs, name, ev) => AfterExobio(w, view, name, ev),
    (w, view, obs, name, ev) => AfterPowerplay(w, view, name, ev),
    (w, view, obs, name, ev) => AfterMisc(w, view, name, ev)]

  /** The loop over the handlers: each sees the state the previous one left
      and appends to the same messages; the first that returns True ends it. */
  function ChainFrom(hs: seq<Handler>, w: World, view: Option<ExternalIntel.Store>, obs: Observed, name: Json,
                     ev: Obj): Chained
  {
    if hs == [] then Chained(w, view, false, [])
    else
      var r := hs[0](w, view, obs, name, ev);
      if r.handled then r
      else
        var rest := ChainFrom(hs[1..], r.world, r.view, obs, name, ev);
        Chained(rest.world, rest.view, rest.handled, r.msgs + rest.msgs)
  }

  /** A handler that declines without changing anything passes the event on. */
  lemma ChainSkips(hs: seq<Handler>, w: World, view: Option<ExternalIntel.Store>, obs: Observed, name: Json, ev: Obj)
    requires hs != [] && hs[0](w, view, obs, name, ev) == Chained(w, view, false, [])
    ensures ChainFrom(hs, w, view, obs, name, ev) == ChainFrom(hs[1..], w, view, obs, name, ev)
  {
  }

  /** No kind is claimed by two handlers. */
  lemma KindsDisjoint(name: Json)
    ensures InventoryHandler.Claims(name) ==> (!ExplorationHandler.Claims(name) && !ExobioHandler.Claims(name)
      && name != JStr("Powerplay") && !MiscHandler.Claims(name))
    ensures ExplorationHandler.Claims(name) ==> (!ExobioHandler.Claims(name) && name != JStr("Powerplay")
      && !MiscHandler.Claims(name))
    ensures ExobioHandler.Claims(name) ==> name != JStr("Powerplay") && !MiscHandler.Claims(name)
    ensures name == JStr("Powerplay") ==> !MiscHandler.Claims(name)
  {
  }

  /** Each handler declines the kinds it does not claim, leaving everything as it was. */
  lemma HandlersDecline(w: World, view: Option<ExternalIntel.Store>, obs: Observed, name: Json, ev: Obj)
    ensures !InventoryHandler.Claims(name) ==> Handlers[0](w, view, obs, name, ev) == Chained(w, view, false, [])
    ensures !ExplorationHandler.Claims(name) ==> Handlers[1](w, view, obs, name, ev) == Chained(w, view, false, [])
    ensures !ExobioHandler.Claims(name) ==> Handlers[2](w, view, obs, name, ev) == Chained(w, view, false, [])
    ensures name != JStr("Powerplay") ==> Handlers[3](w, view, obs, name, ev) == Chained(w, view, false, [])
    ensures !MiscHandler.Claims(name) ==> Handlers[4](w, view, obs, name, ev) == Chained(w, view, false, [])
  {
    if !InventoryHandler.Claims(name) {
      InventoryHandler.InventoryDeclines(w.cmdr, w.inventory, name, ev);
    }
    if !ExplorationHandler.Claims(name) {
      ExplorationHandler.ExplorationDeclines(w.travel, w.sys, w.meta, w.survey, w.ledger, view, obs, name, ev);
    }
    if !ExobioHandler.Claims(name) {
      ExobioHandler.ExobioDeclines(w.survey, w.ledger, name, ev);
    }
    if name != JStr("Powerplay") {
      PowerplayHandler.PowerplayDeclines(w.pledge, name, ev);
    }
    if !MiscHandler.Claims(name) {
      MiscHandler.MiscDeclines(w.ledger, w.combat, name, ev);
    }
  }

  /** Whatever the order, the one handler claiming a kind is the one that
      acts, and a kind nobody claims changes nothing. */
  lemma ChainRunsClaimant(w: World, view: Option<ExternalIntel.Store>, obs: Observed, name: Json, ev: Obj)
    ensures InventoryHandler.Claims(name) ==> ChainFrom(Handlers, w, view, obs, name, ev) == AfterInventory(w, view, name, ev)
    ensures ExplorationHandler.Claims(name) ==> ChainFrom(Handlers, w, view, obs, name, ev) == AfterExploration(w, view, obs, name, ev)
    ensures ExobioHandler.Claims(name) ==> ChainFrom(Handlers, w, view, obs, name, ev) == AfterExobio(w, view, name, ev)
    ensures name == JStr("Powerplay") ==> ChainFrom(Handlers, w, view, obs, name, ev) == AfterPowerplay(w, view, name, ev)
    ensures MiscHandler.Claims(name) ==> ChainFrom(Handlers, w, view, obs, name, ev) == AfterMisc(w, view, name, ev)
    ensures !Claimed(name) ==> ChainFrom(Handlers, w, view, obs, name, ev) == Chained(w, view, false, [])
  {
    KindsDisjoint(name);
    HandlersDecline(w, view, obs, name, ev);
    var hs := Handlers;
    assert hs[1..][0] == hs[1] && hs[2..][0] == hs[2] && hs[3..][0] == hs[3] && hs[4..][0] == hs[4];
    assert hs[1..][1..] == hs[2..] && hs[2..][1..] == hs[3..] && hs[3..][1..] == hs[4..] && hs[4..][1..] == [];
    if !InventoryHandler.Claims(name) {
      ChainSkips(hs, w, view, obs, name, ev);
      if !ExplorationHandler.Claims(name) {
        ChainSkips(hs[1..], w, view, obs, name, ev);
        if !ExobioHandler.Claims(name) {
          ChainSkips(hs[2..], w, view, obs, name, ev);
          if name != JStr("Powerplay") {
            ChainSkips(hs[3..], w, view, obs, name, ev);
            if !MiscHandler.Claims(name) {
              ChainSkips(hs[4..], w, view, obs, name, ev);
            }
          }
        }
      }
    }
  }

  // ---------------------------------------------------------------------------
  // process

  /** The state after `process`, the intel store, whether an inline branch
      raised out of it (then there are no messages to return), and the
      messages it returns. */
  datatype Outcome = Outcome(world: World, view: Option<ExternalIntel.Store>, raised: bool, msgs: seq<string>)

  /** The state with the event name recorded and an int `Credits` stored. */
  function Recorded(w: World, ev: Obj): World {
    var credits := Get(ev, "Credits");
    w.(lastEvent := Get(ev, "event"), cmdr := if IsInt(credits) then w.cmdr.(credits := credits) else w.cmdr)
  }

  /** `process(event)` on values; `env.obs` and `obsChain` are the intel file
      as the inline branch and the handler see it. */
  function ProcessSpec(w: World, view: Option<ExternalIntel.Store>, env: Env, obsChain: Observed, ev: Obj): (r: Outcome)
  {
    var name := Get(ev, "event");
    var w0 := Recorded(w, ev);
    var s := if IsInt(Get(ev, "Credits")) then Step(w0, view, Continue, []) else InlineSpec(w0, view, env, KindOf(name), ev);
    if s.flow == Raised then Outcome(s.world, s.view, true, [])
    else if s.flow == Return then Outcome(s.world, s.view, false, s.msgs)
    else
      var ch := ChainFrom(Handlers, s.world, s.view, obsChain, name, ev);
      Outcome(ch.world, ch.view, false, s.msgs + ch.msgs)
  }

  /** An int `Credits` is stored and, because the inline branches are the
      `elif`s of that test, none of them runs: the event goes straight to the
      handler chain. */
  lemma CreditsSkipInline(w: World, view: Option<ExternalIntel.Store>, env: Env, obsChain: Observed, ev: Obj)
    requires IsInt(Get(ev, "Credits"))
    ensures var ch := ChainFrom(Handlers, Recorded(w, ev), view, obsChain, Get(ev, "event"), ev);
      ProcessSpec(w, view, env, obsChain, ev) == Outcome(ch.world, ch.view, false, ch.msgs)
  {
  }

  /** A kind with neither an inline branch nor a claiming handler only
      records the event name, and the credits when they are an int. */
  lemma UnknownKindRecorded(w: World, view: Option<ExternalIntel.Store>, env: Env, obsChain: Observed, ev: Obj)
    requires !HasInlineBranch(Get(ev, "event")) && !Claimed(Get(ev, "event"))
    ensures ProcessSpec(w, view, env, obsChain, ev) == Outcome(Recorded(w, ev), view, false, [])
  {
    KindOfListed(Get(ev, "event"));
    ChainRunsClaimant(Recorded(w, ev), view, obsChain, Get(ev, "event"), ev);
  }

  /** Every outcome records the event name; a raise returns no messages. */
  lemma NameRecorded(w: World, view: Option<ExternalIntel.Store>, env: Env, obsChain: Observed, ev: Obj)
    ensures var r := ProcessSpec(w, view, env, obsChain, ev);
      r.world.lastEvent == Get(ev, "event") && (r.raised ==> r.msgs == [])
  {
    var w0 := Recorded(w, ev);
    var name := Get(ev, "event");
    InlineKeepsName(w0, view, env, KindOf(name), ev);
    var s := if IsInt(Get(ev, "Credits")) then Step(w0, view, Continue, []) else InlineSpec(w0, view, env, KindOf(name), ev);
    ChainKeepsName(Handlers, s.world, s.view, obsChain, name, ev);
  }

  /** No inline branch touches `last_event`. */
  lemma InlineKeepsName(w: World, view: Option<ExternalIntel.Store>, env: Env, k: InlineKind, ev: Obj)
    ensures InlineSpec(w, view, env, k, ev).world.lastEvent == w.lastEvent
  {
  }

  /** Location and StartJump change only travel, the per-system data, the
      system description and combat: the commander, the pledge, the survey,
      the ledgers (community goals among them) and the inventories stay. */
  lemma SystemChangeKeepsRest(w: World, view: Option<ExternalIntel.Store>, env: Env, k: InlineKind, ev: Obj)
    requires k == Location || k == StartJump
    ensures var r := InlineSpec(w, view, env, k, ev).world;
      r.(travel := w.travel, sys := w.sys, meta := w.meta, combat := w.combat) == w
  {
  }

  /** No handler touches `last_event`. */
  lemma {:induction false} ChainKeepsName(hs: seq<Handler>, w: World, view: Option<ExternalIntel.Store>, obs: Observed,
                                          name: Json, ev: Obj)
    requires forall i :: 0 <= i < |hs| ==> hs[i] in Handlers
    ensures ChainFrom(hs, w, view, obs, name, ev).world.lastEvent == w.lastEvent
    decreases |hs|
  {
    if hs != [] {
      var r := hs[0](w, view, obs, name, ev);
      assert r.world.lastEvent == w.lastEvent;
      if !r.handled {
        ChainKeepsName(hs[1..], r.world, r.view, obs, name, ev);
      }
    }
  }

  /** Without an int `Credits`, an inline branch that ends in `return` keeps
      the chain from running, one that raises returns no messages, and one
      that falls through is followed by the claiming handler, whose notices
      come after the branch's. */
  lemma InlineThenClaimant(w: World, view: Option<ExternalIntel.Store>, env: Env, obsChain: Observed, ev: Obj)
    requires !IsInt(Get(ev, "Credits"))
    ensures var name := Get(ev, "event");
      var s := InlineSpec(Recorded(w, ev), view, env, KindOf(name), ev);
      var r := ProcessSpec(w, view, env, obsChain, ev);
      (s.flow == Return ==> r == Outcome(s.world, s.view, false, s.msgs))
      && (s.flow == Raised ==> r == Outcome(s.world, s.view, true, []))
      && (s.flow == Continue && ExplorationHandler.Claims(name) ==>
        var x := AfterExploration(s.world, s.view, obsChain, name, ev);
        r == Outcome(x.world, x.view, false, s.msgs + x.msgs))
      && (s.flow == Continue && ExobioHandler.Claims(name) ==>
        var x := AfterExobio(s.world, s.view, name, ev);
        r == Outcome(x.world, x.view, false, s.msgs + x.msgs))
      && (s.flow == Continue && MiscHandler.Claims(name) ==>
        var m := AfterMisc(s.world, s.view, name, ev);
        r == Outcome(m.world, m.view, false, s.msgs + m.msgs))
  {
    var name := Get(ev, "event");
    var s := InlineSpec(Recorded(w, ev), view, env, KindOf(name), ev);
    ChainRunsClaimant(s.world, s.view, obsChain, name, ev);
  }

  // ---------------------------------------------------------------------------
  // The methods

  /** The Location, StartJump and Powerplay branches. */
  method RunTravel(e: EventEngine, env: Env, k: InlineKind, ev: Obj) returns (flow: Flow, msgs: seq<string>)
    requires TravelKind(k)
    modifies e.state, e.intel
    ensures Step(Snap(e.state), IntelView(e.intel), flow, msgs) == TravelBranch(old(Snap(e.state)), old(IntelView(e.intel)), env, k, ev)
  {
    flow := Continue;
    if k == Location {
      flow, msgs := InlineSystem.Location(e, env.obs, ev);
    } else if k == StartJump {
      msgs := InlineSystem.StartJump(e, env.obs, ev);
    } else {
      msgs := InlineSystem.Powerplay(e, ev);
    }
  }

  /** The ShipTargeted and Cargo branches. */
  method RunContact(e: EventEngine, env: Env, k: InlineKind, ev: Obj) returns (flow: Flow, msgs: seq<string>)
    requires ContactKind(k)
    modifies e.state, e.intel
    ensures Step(Snap(e.state), IntelView(e.intel), flow, msgs) == ContactBranch(old(Snap(e.state)), old(IntelView(e.intel)), k, ev)
  {
    if k == ShipTargeted {
      flow, msgs := InlineCombat.ShipTargeted(e, ev);
    } else {
      flow, msgs := InlineCargo.Cargo(e, ev);
    }
  }

  /** The body branches: Scan, SAAScanComplete, FSSDiscoveryScan, FSSBodySignals, SAASignalsFound. */
  method RunBody(e: EventEngine, env: Env, k: InlineKind, ev: Obj) returns (flow: Flow)
    requires BodyKind(k) && env.planets == e.planets
    modifies e.state, e.intel
    ensures Step(Snap(e.state), IntelView(e.intel), flow, []) == BodyBranch(old(Snap(e.state)), old(IntelView(e.intel)), env, k, ev)
  {
    flow := Continue;
    if k == Scan {
      flow := InlineBodies.Scan(e, ev);
    } else if k == SaaScanComplete {
      flow := InlineBodies.SaaScanComplete(e, ev);
    } else if k == FssDiscoveryScan {
      InlineBodies.FssDiscoveryScan(e, ev);
    } else if k == FssBodySignals {
      flow := InlineBodies.FssBodySignals(e, ev);
    } else {
      flow := InlineBodies.SaaSignalsFound(e, ev);
    }
  }

  /** The exobiology branches: ScanOrganic, CodexEntry, SellOrganicData. */
  method RunExo(e: EventEngine, env: Env, k: InlineKind, ev: Obj) returns (flow: Flow, msgs: seq<string>)
    requires ExoKind(k) && env.exoValues == e.exoValues
    modifies e.state, e.intel
    ensures Step(Snap(e.state), IntelView(e.intel), flow, msgs) == ExoBranch(old(Snap(e.state)), old(IntelView(e.intel)), env, k, ev)
  {
    msgs := [];
    if k == ScanOrganic {
      flow := InlineExo.ScanOrganic(e, ev);
    } else if k == CodexEntry {
      flow := InlineExo.CodexEntry(e, ev);
    } else {
      flow, msgs := InlineExo.SellOrganicData(e, ev);
    }
  }

  /** Stage one: the inline branch the event's name selects. */
  method RunInline(e: EventEngine, env: Env, k: InlineKind, ev: Obj) returns (flow: Flow, msgs: seq<string>)
    requires env.planets == e.planets && env.exoValues == e.exoValues
    modifies e.state, e.intel
    ensures Step(Snap(e.state), IntelView(e.intel), flow, msgs) == InlineSpec(old(Snap(e.state)), old(IntelView(e.intel)), env, k, ev)
  {
    flow, msgs := Continue, [];
    if TravelKind(k) {
      flow, msgs := RunTravel(e, env, k, ev);
    } else if ContactKind(k) {
      flow, msgs := RunContact(e, env, k, ev);
    } else if BodyKind(k) {
      flow := RunBody(e, env, k, ev);
    } else if ExoKind(k) {
      flow, msgs := RunExo(e, env, k, ev);
    } else if k == FssSignalDiscovered {
      InlineSignals.FssSignalDiscovered(e, ev);
    }
  }

  /** Stage two: `for fn in (...)`, from the misc handler on. */
  method ChainAtMisc(e: EventEngine, obs: Observed, name: Json, ev: Obj) returns (handled: bool, msgs: seq<string>)
    modifies e.state, e.intel
    ensures Chained(Snap(e.state), IntelView(e.intel), handled, msgs)
      == ChainFrom(Handlers[4..], old(Snap(e.state)), old(IntelView(e.intel)), obs, name, ev)
  {
    assert Handlers[4..][0] == Handlers[4] && Handlers[4..][1..] == [];
    handled, msgs := MiscHandler.Handle(e.state, name, ev);
  }

  /** Stage two from the powerplay handler on. */
  method ChainAtPowerplay(e: EventEngine, obs: Observed, name: Json, ev: Obj) returns (handled: bool, msgs: seq<string>)
    modifies e.state, e.intel
    ensures Chained(Snap(e.state), IntelView(e.intel), handled, msgs)
      == ChainFrom(Handlers[3..], old(Snap(e.state)), old(IntelView(e.intel)), obs, name, ev)
  {
    assert Handlers[3..][0] == Handlers[3] && Handlers[3..][1..] == Handlers[4..];
    handled, msgs := PowerplayHandler.Handle(e.state, name, ev);
    if !handled {
      var more;
      handled, more := ChainAtMisc(e, obs, name, ev);
      msgs := msgs + more;
    }
  }

  /** Stage two from the exobiology handler on. */
  method ChainAtExobio(e: EventEngine, obs: Observed, name: Json, ev: Obj) returns (handled: bool, msgs: seq<string>)
    modifies e.state, e.intel
    ensures Chained(Snap(e.state), IntelView(e.intel), handled, msgs)
      == ChainFrom(Handlers[2..], old(Snap(e.state)), old(IntelView(e.intel)), obs, name, ev)
  {
    assert Handlers[2..][0] == Handlers[2] && Handlers[2..][1..] == Handlers[3..];
    handled, msgs := ExobioHandler.Handle(e.state, name, ev);
    if !handled {
      var more;
      handled, more := ChainAtPowerplay(e, obs, name, ev);
      msgs := msgs + more;
    }
  }

  /** Stage two from the exploration handler on. */
  method ChainAtExploration(e: EventEngine, obs: Observed, name: Json, ev: Obj) returns (handled: bool, msgs: seq<string>)
    modifies e.state, e.intel
    ensures Chained(Snap(e.state), IntelView(e.intel), handled, msgs)
      == ChainFrom(Handlers[1..], old(Snap(e.state)), old(IntelView(e.intel)), obs, name, ev)
  {
    assert Handlers[1..][0] == Handlers[1] && Handlers[1..][1..] == Handlers[2..];
    handled, msgs := ExplorationHandler.Handle(e, obs, name, ev);
    if !handled {
      var more;
      handled, more := ChainAtExobio(e, obs, name, ev);
      msgs := msgs + more;
    }
  }

  /** Stage two: `for fn in (...)`, stopping at the first handler that
      returns True; each handler sees the state the previous one left. */
  method RunChain(e: EventEngine, obs: Observed, name: Json, ev: Obj) returns (handled: bool, msgs: seq<string>)
    modifies e.state, e.intel
    ensures Chained(Snap(e.state), IntelView(e.intel), handled, msgs)
      == ChainFrom(Handlers, old(Snap(e.state)), old(IntelView(e.intel)), obs, name, ev)
  {
    handled, msgs := InventoryHandler.Handle(e, name, ev);
    if !handled {
      var more;
      handled, more := ChainAtExploration(e, obs, name, ev);
      msgs := msgs + more;
    }
  }

  /** `process(event)`; `raised` says that an inline branch raised out of it. */
  method Process(e: EventEngine, env: Env, obsChain: Observed, ev: Obj) returns (raised: bool, msgs: seq<string>)
    requires env.planets == e.planets && env.exoValues == e.exoValues
    modifies e.state, e.intel
    ensures Outcome(Snap(e.state), IntelView(e.intel), raised, msgs)
      == ProcessSpec(old(Snap(e.state)), old(IntelView(e.intel)), env, obsChain, ev)
  {
    var name := Get(ev, "event");
    e.state.lastEvent := name;
    var credits := Get(ev, "Credits");
    var flow := Continue;
    msgs := [];
    if IsInt(credits) {
      e.state.cmdr := e.state.cmdr.(credits := credits);
    } else {
      flow, msgs := RunInline(e, env, KindOf(name), ev);
    }
    if flow == Raised {
      return true, [];
    }
    raised := false;
    if flow == Return {
      return;
    }
    var handled, more := RunChain(e, obsChain, name, ev);
    msgs := msgs + more;
  }
}
