/** `GameState`: the record the journal fold updates in place. Its fields
    keep the source's names and defaults; they are grouped by concern into
    value records, one class field per group, so that a branch replaces the
    groups it touches and the frame of every method says which groups it
    may change. Optional scalars are `JNull` until an event sets them; dicts
    are `map`s, except `exo`, whose insertion order the organism branches
    depend on. */
module State {
  import opened PyJson
  import opened PyDict

  /** Who is flying what, and the cargo snapshot. */
  datatype CommanderInfo = CommanderInfo(
    commander: Json, ship: Json, shipId: Json, credits: Json,
    cargoCount: Json, limpets: Json, cargoInventory: seq<Json>)

  /** Where the commander is and where the last jump was going. */
  datatype Travel = Travel(
    system: Json, systemAddress: Json, inHyperspace: bool, jumpStarClass: Json,
    starClass: Json, pendingSystem: Json, lastJumpType: Json, visitedSystems: set<string>)

  /** The per-system bodies, organisms, signals and intel that a system change discards. */
  datatype SystemData = SystemData(
    bodies: map<string, Obj>, exo: Dict<string, Obj>, bodyIdToName: map<int, string>,
    bioSignals: map<string, Json>, bioGenuses: map<string, seq<string>>, geoSignals: map<string, Json>,
    nonBodyCount: Json, systemSignals: seq<Json>, externalPois: seq<Json>, systemBodyCount: Json)

  /** The description, factions and powerplay situation of the current system. */
  datatype SystemMeta = SystemMeta(
    systemAllegiance: Json, systemGovernment: Json, systemEconomy: Json, systemSecurity: Json,
    population: Json, controllingFaction: Json, factions: Json,
    systemControllingPower: Json, systemPowerplayState: Json, systemPowers: seq<Json>,
    systemConflictProgress: Obj)

  /** Targeted ships: the contact list, the current one and the alerts. */
  datatype Combat = Combat(
    ppEnemyAlerts: seq<string>, currentContactAlert: string, combatContacts: map<string, Obj>,
    combatCurrentKey: string, lastTargetShip: Json, lastTargetPilot: Json)

  /** The pledge as the inline branch and as the powerplay handler record it. */
  datatype Pledge = Pledge(
    ppPower: Json, ppRank: Json, ppMerits: Json,
    power: Json, powerState: Json, powerRank: Json, powerMerits: Json)

  /** The last body, codex entry and organic scan, and the per-body notes a
      system change keeps. */
  datatype Survey = Survey(
    lastBody: Json, lastCodex: Json, lastOrganicScan: Json, lastOrganicValue: Json,
    bodyValues: map<string, Json>, saaSignals: map<string, seq<Json>>)

  /** The session ledgers and the community goals. */
  datatype Ledger = Ledger(
    sessionExoEarnings: int, sessionExobioEarnings: int, sessionExplorationEarnings: int,
    sessionCodexEarnings: int, sessionCodexCollected: int, sessionVoucherEarnings: int,
    communityGoals: map<int, Obj>, lastCgJoined: Json)

  /** The commander-wide materials and on-foot inventory, with their
      localisation maps (the alias maps are separate fields that nothing
      keeps in step). */
  datatype Inventory = Inventory(
    materialsRaw: map<string, int>, materialsManufactured: map<string, int>, materialsEncoded: map<string, int>,
    materialsLocalised: map<string, string>, materialsLastUpdate: Json,
    materialsRawLoc: map<string, string>, materialsManufacturedLoc: map<string, string>,
    materialsEncodedLoc: map<string, string>,
    shiplockerItems: map<string, int>, shiplockerLocalised: map<string, string>, shiplockerLastUpdate: Json,
    shiplockerItemsLoc: map<string, string>, itemCategory: map<string, string>)

  const InitialCommander := CommanderInfo(JNull, JNull, JNull, JNull, JNull, JNull, [])
  const InitialTravel := Travel(JNull, JNull, false, JNull, JNull, JNull, JNull, {})
  /** The per-system data at its defaults, which is also what a system change leaves. */
  const EmptySystemData := SystemData(map[], Dict([], map[]), map[], map[], map[], map[], JNull, [], [], JNull)
  /** The system description at its defaults, which is also what a system change leaves. */
  const EmptySystemMeta := SystemMeta(JNull, JNull, JNull, JNull, JNull, JNull, JList([]), JNull, JNull, [], [])
  const InitialCombat := Combat([], "", map[], "", JNull, JNull)
  const InitialPledge := Pledge(JNull, JNull, JNull, JNull, JNull, JNull, JNull)
  const InitialSurvey := Survey(JNull, JNull, JNull, JNull, map[], map[])
  const InitialLedger := Ledger(0, 0, 0, 0, 0, 0, map[], JNull)
  const InitialInventory := Inventory(map[], map[], map[], map[], JNull, map[], map[], map[], map[], map[], JNull,
    map[], map[])

  class GameState {
    var lastEvent: Json
    var cmdr: CommanderInfo
    var travel: Travel
    var sys: SystemData
    var meta: SystemMeta
    var combat: Combat
    var pledge: Pledge
    var survey: Survey
    var ledger: Ledger
    var inventory: Inventory

    /** `GameState()`: every optional scalar is None, every collection is
        empty (`factions` an empty list), the ledgers are 0, `in_hyperspace`
        is False and the two key strings are "". */
    constructor ()
      ensures lastEvent == JNull && cmdr == InitialCommander && travel == InitialTravel
      ensures sys == EmptySystemData && meta == EmptySystemMeta && combat == InitialCombat
      ensures pledge == InitialPledge && survey == InitialSurvey && ledger == InitialLedger
      ensures inventory == InitialInventory
    {
      lastEvent := JNull;
      cmdr := InitialCommander;
      travel := InitialTravel;
      sys := EmptySystemData;
      meta := EmptySystemMeta;
      combat := InitialCombat;
      pledge := InitialPledge;
      survey := InitialSurvey;
      ledger := InitialLedger;
      inventory := InitialInventory;
    }
  }
}
