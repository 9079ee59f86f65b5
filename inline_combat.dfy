/** The inline ShipTargeted branch of `EventEngine.process`: the combat
    contact list keyed by pilot, ship and faction, and the PowerPlay /
    bounty alert for a completed scan. */
module InlineCombat {
  import opened PyText
  import opened PyJson
  import opened State
  import opened EngineBase

  /** The journal's combat ranks, indexed by `PilotRank`. */
  const RankNames: seq<string> := ["Harmless", "Mostly Harmless", "Novice", "Competent", "Expert", "Master",
    "Dangerous", "Deadly", "Elite"]

  /** The rank shown for a `PilotRank`: the name of an int rank 0..8, a
      string rank trimmed, "" for anything else. */
  function RankName(v: Json): (r: string)
    ensures IsInt(v) && 0 <= IntOf(v) < |RankNames| ==> r == RankNames[IntOf(v)]
    ensures IsInt(v) && !(0 <= IntOf(v) < |RankNames|) ==> r == ""
    ensures !IsInt(v) && !v.JStr? ==> r == ""
  {
    if IsInt(v) then (if 0 <= IntOf(v) < |RankNames| then RankNames[IntOf(v)] else "")
    else if v.JStr? then Strip(v.s)
    else ""
  }

  /** A rank that can make a bounty worth an alert. */
  predicate HighRank(rank: string) {
    Lower(rank) in {"dangerous", "deadly", "elite"}
  }

  /** What a completed scan reports about the target. */
  datatype Scan = Scan(pilot: Json, ship: Json, faction: Json, power: string, wanted: bool, bounty: Json,
                       rank: string, seen: Json)

  /** The pilot as shown: the localised name, else the raw one, else "". */
  function PilotOf(ev: Obj): Json {
    Or(Or(Get(ev, "PilotName_Localised"), Get(ev, "PilotName")), JStr(""))
  }

  /** The ship as shown: the localised name, else the raw one, else "". */
  function ShipOf(ev: Obj): Json {
    Or(Or(Get(ev, "Ship_Localised"), Get(ev, "Ship")), JStr(""))
  }

  function FactionOf(ev: Obj): Json {
    Or(Get(ev, "Faction"), JStr(""))
  }

  /** The scan fields as the branch reads them: a non-string power as "",
      wanted from the legal status. */
  function ScanOf(ev: Obj): Scan {
    var legal := Or(Get(ev, "LegalStatus"), JStr(""));
    var power := Get(ev, "Power");
    Scan(PilotOf(ev), ShipOf(ev), FactionOf(ev),
         if power.JStr? then power.s else "",
         legal.JStr? && Lower(Strip(legal.s)) == "wanted",
         Get(ev, "Bounty"),
         RankName(Get(ev, "PilotRank")),
         Or(Get(ev, "timestamp"), JStr("")))
  }

  /** `(v).strip()`, which raises unless `v` is a string. */
  function KeyPart(v: Json): Option<string> {
    if v.JStr? then Some(Strip(v.s)) else None
  }

  /** `pilot|ship|faction`, from the raw pilot and ship names when they are
      set; `None` when one of the three parts is not a string, which raises. */
  function ContactKey(ev: Obj): (r: Option<string>)
    ensures r.Some? <==> (KeyPart(Or(Or(Get(ev, "PilotName"), PilotOf(ev)), JStr("UNKNOWN"))).Some?
      && KeyPart(Or(Or(Get(ev, "Ship"), ShipOf(ev)), JStr("UNKNOWN"))).Some?
      && KeyPart(Or(FactionOf(ev), JStr("UNKNOWN"))).Some?)
  {
    var p := KeyPart(Or(Or(Get(ev, "PilotName"), PilotOf(ev)), JStr("UNKNOWN")));
    var sh := KeyPart(Or(Or(Get(ev, "Ship"), ShipOf(ev)), JStr("UNKNOWN")));
    var f := KeyPart(Or(FactionOf(ev), JStr("UNKNOWN")));
    if p.Some? && sh.Some? && f.Some? then Some(p.value + "|" + sh.value + "|" + f.value) else None
  }

  /** The contact row a scan writes. */
  function ContactRecord(s: Scan): Obj {
    [Member("Pilot", s.pilot), Member("Rank", JStr(s.rank)), Member("Ship", s.ship), Member("Faction", s.faction),
     Member("Power", JStr(s.power)), Member("Wanted", JBool(s.wanted)),
     Member("Bounty", if IsInt(s.bounty) then s.bounty else JNull), Member("LastSeen", s.seen)]
  }

  /** The current system is controlled by the pledged power. */
  predicate InOwnSpace(ctrl: Json, pledged: Json) {
    ctrl.JStr? && ctrl == pledged
  }

  /** The target flies for a power other than the pledged one. */
  predicate PpEnemy(s: Scan, pledged: Json) {
    s.power != "" && JStr(s.power) != pledged
  }

  /** A wanted target of rank Dangerous or above with a bounty of at least 500,000 cr. */
  predicate BountyTarget(s: Scan) {
    s.wanted && IsInt(s.bounty) && IntOf(s.bounty) >= 500000 && HighRank(s.rank)
  }

  /** The alert rule: only when pledged; in the pledged power's own space for
      an enemy of that power or a bounty target, elsewhere only for a bounty
      target. */
  predicate Fires(s: Scan, pledged: Json, ctrl: Json) {
    Truthy(pledged) && (if InOwnSpace(ctrl, pledged) then PpEnemy(s, pledged) || BountyTarget(s) else BountyTarget(s))
  }

  /** The non-blank strings among pilot, ship and faction. */
  function WhoBits(xs: seq<Json>): (r: seq<string>)
    ensures |r| <= |xs|
  {
    if xs == [] then []
    else (if IsNonBlankStr(xs[0]) then [xs[0].s] else []) + WhoBits(xs[1..])
  }

  /** The alert line: who was scanned and why it matters. */
  function AlertText(s: Scan, enemy: bool): string {
    var bits := WhoBits([s.pilot, s.ship, s.faction]);
    var who := if bits == [] then "Unknown target" else Join(" \U{2014} ", bits);
    var parts := ["\U{2694}\U{FE0F} " + (if enemy then "PP enemy" else "High bounty") + " scan: " + who]
      + (if s.rank != "" then ["Rank: " + s.rank] else [])
      + (if s.power != "" then ["Power: " + s.power] else [])
      + (if s.wanted then ["Wanted"] else [])
      + (if IsInt(s.bounty) && IntOf(s.bounty) > 0 then ["Bounty: " + IntCommas(IntOf(s.bounty)) + " cr"] else []);
    Join(" | ", parts)
  }

  /** The combat group after the branch, how the branch ends and its notices. */
  datatype CombatStep = CombatStep(combat: Combat, flow: Flow, msgs: seq<string>)

  /** `ScanStage` is an int below 3: the scan has not completed. */
  predicate EarlyStage(ev: Obj) {
    IsInt(Get(ev, "ScanStage")) && IntOf(Get(ev, "ScanStage")) < 3
  }

  /** `TargetLocked` is the literal `False`. */
  predicate Dropped(ev: Obj) {
    Get(ev, "TargetLocked") == JBool(false)
  }

  /** What the branch reads from a ShipTargeted event. */
  datatype Target = Target(dropped: bool, early: bool, key: Option<string>, scan: Scan)

  function TargetOf(ev: Obj): Target {
    Target(Dropped(ev), EarlyStage(ev), ContactKey(ev), ScanOf(ev))
  }

  /** The ShipTargeted branch on values, given the pledged power and the
      current system's controlling power. */
  function TargetStep(c: Combat, pledged: Json, ctrl: Json, t: Target): CombatStep {
    if t.dropped then CombatStep(c.(currentContactAlert := "", ppEnemyAlerts := [], combatCurrentKey := ""), Return, [])
    else if t.early then CombatStep(c, Return, [])
    else if t.key.None? then CombatStep(c, Raised, [])
    else
      var c1 := c.(combatContacts := c.combatContacts[t.key.value := ContactRecord(t.scan)], combatCurrentKey := t.key.value);
      if !Fires(t.scan, pledged, ctrl) then CombatStep(c1, Return, [])
      else
        var alert := AlertText(t.scan, PpEnemy(t.scan, pledged));
        CombatStep(if c1.currentContactAlert != alert then c1.(currentContactAlert := alert, ppEnemyAlerts := [alert])
                   else c1, Continue, [alert])
  }

  /** A dropped target clears the alert, the alert list and the current
      contact, keeps the contact list, and skips the handler chain. */
  lemma DroppedClears(c: Combat, pledged: Json, ctrl: Json, t: Target)
    requires t.dropped
    ensures var r := TargetStep(c, pledged, ctrl, t);
      r.combat.currentContactAlert == "" && r.combat.ppEnemyAlerts == [] && r.combat.combatCurrentKey == ""
      && r.combat.combatContacts == c.combatContacts && r.flow == Return && r.msgs == []
  {
  }

  /** A scan that has not completed changes nothing and skips the chain. */
  lemma EarlyScanKeeps(c: Combat, pledged: Json, ctrl: Json, t: Target)
    requires !t.dropped && t.early
    ensures TargetStep(c, pledged, ctrl, t) == CombatStep(c, Return, [])
  {
  }

  /** A completed scan overwrites exactly the row of its key and makes it
      current, whether or not it alerts; it raises only when a key part is
      not a string, and then changes nothing. */
  lemma ScanRecordsContact(c: Combat, pledged: Json, ctrl: Json, t: Target)
    requires !t.dropped && !t.early
    ensures var r := TargetStep(c, pledged, ctrl, t);
      match t.key
      case None => r == CombatStep(c, Raised, [])
      case Some(key) =>
        r.combat.combatContacts == c.combatContacts[key := ContactRecord(t.scan)]
        && r.combat.combatCurrentKey == key && r.combat.lastTargetShip == c.lastTargetShip
  {
  }

  /** The branch alerts, with exactly one notice, and falls through to the
      handler chain exactly when a completed scan meets the alert rule. */
  lemma AlertIffFires(c: Combat, pledged: Json, ctrl: Json, t: Target)
    ensures var r := TargetStep(c, pledged, ctrl, t);
      var reached := !t.dropped && !t.early && t.key.Some?;
      (r.flow == Continue <==> reached && Fires(t.scan, pledged, ctrl))
      && (r.flow == Continue ==> |r.msgs| == 1 && r.combat.currentContactAlert == r.msgs[0])
      && (r.flow != Continue ==> r.msgs == [])
  {
  }

  /** Outside the pledged power's space an enemy power alone never alerts:
      only a wanted target of rank Dangerous, Deadly or Elite with a bounty
      of at least 500,000 cr does. */
  lemma OutsideOwnSpaceOnlyBounty(s: Scan, pledged: Json, ctrl: Json)
    requires !InOwnSpace(ctrl, pledged)
    ensures Fires(s, pledged, ctrl) <==> (Truthy(pledged) && s.wanted && IsInt(s.bounty)
      && IntOf(s.bounty) >= 500000 && Lower(s.rank) in {"dangerous", "deadly", "elite"})
  {
  }

  /** A name that lower-cases to one of the alert ranks. */
  lemma LowersTo(name: string, low: string)
    requires |name| == |low|
    requires forall i :: 0 <= i < |name| ==> LowerChar(name[i]) == low[i]
    ensures Lower(name) == low
  {
    LowerAt(name);
  }

  /** Each of the top three ranks lower-cases to an alert rank. */
  lemma DangerousHigh()
    ensures HighRank(RankNames[6])
  {
    LowersTo("Dangerous", "dangerous");
  }

  lemma DeadlyHigh()
    ensures HighRank(RankNames[7])
  {
    LowersTo("Deadly", "deadly");
  }

  lemma EliteHigh()
    ensures HighRank(RankNames[8])
  {
    LowersTo("Elite", "elite");
  }

  /** A name that starts with neither D nor E and is not five letters long
      is no alert rank. */
  lemma NotHighRank(name: string)
    requires name != [] && name[0] != 'D' && name[0] != 'd' && |name| != 5
    ensures !HighRank(name)
  {
    LowerAt(name);
  }

  /** An int rank qualifies for a bounty alert exactly when it is 6, 7 or 8. */
  lemma HighIntRank(n: int)
    ensures HighRank(RankName(JInt(n))) <==> 6 <= n <= 8
  {
    if n == 6 {
      DangerousHigh();
    } else if n == 7 {
      DeadlyHigh();
    } else if n == 8 {
      EliteHigh();
    } else if 0 <= n < 6 {
      NotHighRank(RankNames[n]);
    } else {
      assert RankName(JInt(n)) == "";
    }
  }

  /** Power is not part of the contact key: the same target seen again with
      a power gets the same row. */
  lemma ContactKeyIgnoresPower(ev: Obj, power: Json)
    ensures TargetOf(Put(ev, "Power", power)).key == TargetOf(ev).key
  {
    var ev2 := Put(ev, "Power", power);
    assert Get(ev2, "PilotName") == Get(ev, "PilotName") && Get(ev2, "PilotName_Localised") == Get(ev, "PilotName_Localised");
    assert Get(ev2, "Ship") == Get(ev, "Ship") && Get(ev2, "Ship_Localised") == Get(ev, "Ship_Localised");
    assert Get(ev2, "Faction") == Get(ev, "Faction");
  }

  /** Replaying the same ShipTargeted changes nothing more. */
  lemma ShipTargetedIdempotent(c: Combat, pledged: Json, ctrl: Json, t: Target)
    ensures var r := TargetStep(c, pledged, ctrl, t);
      TargetStep(r.combat, pledged, ctrl, t).combat == r.combat
  {
  }

  /** The ShipTargeted branch. */
  method ShipTargeted(e: EventEngine, ev: Obj) returns (flow: Flow, msgs: seq<string>)
    modifies e.state`combat
    ensures CombatStep(e.state.combat, flow, msgs)
      == TargetStep(old(e.state.combat), e.state.pledge.ppPower, e.state.meta.systemControllingPower, TargetOf(ev))
  {
    msgs := [];
    var t := TargetOf(ev);
    if t.dropped {
      e.state.combat := e.state.combat.(currentContactAlert := "", ppEnemyAlerts := [], combatCurrentKey := "");
      return Return, msgs;
    }
    if t.early {
      return Return, msgs;
    }
    var s, key := t.scan, t.key;
    if key.None? {
      return Raised, msgs;
    }
    e.state.combat := e.state.combat.(combatContacts := e.state.combat.combatContacts[key.value := ContactRecord(s)],
      combatCurrentKey := key.value);
    var pledged := e.state.pledge.ppPower;
    if !Truthy(pledged) {
      return Return, msgs;
    }
    var ctrl := e.state.meta.systemControllingPower;
    var own := ctrl.JStr? && ctrl == pledged;
    var bountyTarget := BountyTarget(s);
    var enemy := s.power != "" && JStr(s.power) != pledged;
    if own {
      if !(enemy || bountyTarget) {
        return Return, msgs;
      }
    } else if !bountyTarget {
      return Return, msgs;
    }
    var alert := AlertText(s, enemy);
    if e.state.combat.currentContactAlert != alert {
      e.state.combat := e.state.combat.(currentContactAlert := alert, ppEnemyAlerts := [alert]);
    }
    msgs := [alert];
    flow := Continue;
  }
}
