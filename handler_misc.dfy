/** The remaining handler: voucher redemptions, community goals and ship targeting. */
module MiscHandler {
  import opened PyText
  import opened PyJson
  import opened State

  const Kinds: seq<string> := ["RedeemVoucher", "CommunityGoalJoin", "CommunityGoal", "ShipTargeted"]

  predicate Claims(name: Json) {
    name.JStr? && name.s in Kinds
  }

  /** The groups the handler may change, whether it claimed the event, and its notices. */
  datatype MiscStep = MiscStep(ledger: Ledger, combat: Combat, handled: bool, msgs: seq<string>)

  /** `community_goals.get(cgid, {})` */
  function GoalRecord(l: Ledger, cgid: int): Obj {
    if cgid in l.communityGoals then l.communityGoals[cgid] else []
  }

  /** The three members a join writes; a falsy name or system keeps the record's own. */
  function JoinMembers(rec: Obj, cgid: Json, ev: Obj): Obj {
    [Member("CGID", cgid), Member("Title", Or(Get(ev, "Name"), Get(rec, "Title"))),
     Member("SystemName", Or(Get(ev, "System"), Get(rec, "SystemName")))]
  }

  /** CommunityGoalJoin with an int id: the record updated and stored, with a
      notice when it has a title. */
  function Join(l: Ledger, ev: Obj): (Ledger, seq<string>) {
    var cgid := Get(ev, "CGID");
    if !IsInt(cgid) then (l, [])
    else
      var rec := Update(GoalRecord(l, IntOf(cgid)), JoinMembers(GoalRecord(l, IntOf(cgid)), cgid, ev));
      (l.(communityGoals := l.communityGoals[IntOf(cgid) := rec]),
       if Truthy(Get(rec, "Title")) then ["CG joined: " + Show(Get(rec, "Title"))] else [])
  }

  /** `misc.handle` on values. */
  function MiscSpec(l: Ledger, c: Combat, name: Json, ev: Obj): (r: MiscStep)
    ensures r.handled <==> Claims(name)
  {
    if name == JStr("RedeemVoucher") then
      var amt := Get(ev, "Amount");
      if IsInt(amt) then
        MiscStep(l.(sessionVoucherEarnings := l.sessionVoucherEarnings + IntOf(amt)), c, true,
          ["Voucher redeemed: " + IntCommas(IntOf(amt)) + " cr"])
      else MiscStep(l, c, true, [])
    else if name == JStr("CommunityGoalJoin") then
      var joined := Join(l, ev);
      MiscStep(joined.0, c, true, joined.1)
    else if name == JStr("CommunityGoal") then
      var cgid := Get(ev, "CGID");
      if IsInt(cgid) then
        MiscStep(l.(communityGoals := l.communityGoals[IntOf(cgid) := Update(GoalRecord(l, IntOf(cgid)), ev)]), c,
          true, [])
      else MiscStep(l, c, true, [])
    else if name == JStr("ShipTargeted") then
      var tgt := Get(ev, "Ship");
      var pilot := Or(Get(ev, "PilotName_Localised"), Get(ev, "PilotName"));
      MiscStep(l, c.(lastTargetShip := if IsNonBlankStr(tgt) then tgt else c.lastTargetShip,
                     lastTargetPilot := if IsNonBlankStr(pilot) then pilot else c.lastTargetPilot), true, [])
    else MiscStep(l, c, false, [])
  }

  /** A redeemed voucher adds an int amount to the voucher ledger and nothing else. */
  lemma VoucherAdds(l: Ledger, c: Combat, ev: Obj)
    ensures var r := MiscSpec(l, c, JStr("RedeemVoucher"), ev);
      var amt := Get(ev, "Amount");
      (IsInt(amt) ==> r.ledger.sessionVoucherEarnings == l.sessionVoucherEarnings + IntOf(amt))
      && (!IsInt(amt) ==> r.ledger == l && r.msgs == [])
      && r.ledger.(sessionVoucherEarnings := l.sessionVoucherEarnings) == l && r.combat == c
  {
  }

  /** A join keeps one record per id: it holds the id, the event's name and
      system when truthy and the record's own otherwise; the other goals stay. */
  lemma JoinRecord(l: Ledger, ev: Obj, k: int)
    requires IsInt(Get(ev, "CGID"))
    ensures var r := Join(l, ev).0; var id := IntOf(Get(ev, "CGID")); var prev := GoalRecord(l, id);
      id in r.communityGoals
      && Get(r.communityGoals[id], "CGID") == Get(ev, "CGID")
      && Get(r.communityGoals[id], "Title") == Or(Get(ev, "Name"), Get(prev, "Title"))
      && Get(r.communityGoals[id], "SystemName") == Or(Get(ev, "System"), Get(prev, "SystemName"))
      && (k != id ==> ((k in r.communityGoals <==> k in l.communityGoals)
        && (k in l.communityGoals ==> r.communityGoals[k] == l.communityGoals[k])))
      && r.(communityGoals := l.communityGoals) == l
  {
    var id := IntOf(Get(ev, "CGID"));
    var ms := JoinMembers(GoalRecord(l, id), Get(ev, "CGID"), ev);
    GetAt(ms, 0);
    GetAt(ms, 1);
    GetAt(ms, 2);
  }

  /** What a join writes into a record. */
  lemma JoinWrites(rec: Obj, cgid: Json, ev: Obj)
    ensures var rec1 := Update(rec, JoinMembers(rec, cgid, ev));
      Has(rec1, "CGID") && Get(rec1, "CGID") == cgid
      && Has(rec1, "Title") && Get(rec1, "Title") == Or(Get(ev, "Name"), Get(rec, "Title"))
      && Has(rec1, "SystemName") && Get(rec1, "SystemName") == Or(Get(ev, "System"), Get(rec, "SystemName"))
  {
    var ms := JoinMembers(rec, cgid, ev);
    GetAt(ms, 0);
    GetAt(ms, 1);
    GetAt(ms, 2);
  }

  /** A record holding the id, and a title and system the event does not
      override, is left as it is by a join. */
  lemma SettledByJoin(rec: Obj, cgid: Json, ev: Obj)
    requires Has(rec, "CGID") && Get(rec, "CGID") == cgid
    requires Has(rec, "Title") && Or(Get(ev, "Name"), Get(rec, "Title")) == Get(rec, "Title")
    requires Has(rec, "SystemName") && Or(Get(ev, "System"), Get(rec, "SystemName")) == Get(rec, "SystemName")
    ensures Update(rec, JoinMembers(rec, cgid, ev)) == rec
  {
    var ms := JoinMembers(rec, cgid, ev);
    assert forall i :: 0 <= i < |ms| ==> Has(rec, ms[i].key) && Get(rec, ms[i].key) == ms[i].val;
    UpdateSettled(rec, ms);
  }

  /** A record a join produced already holds the members a second join writes. */
  lemma JoinSettles(rec: Obj, cgid: Json, ev: Obj)
    ensures var rec1 := Update(rec, JoinMembers(rec, cgid, ev));
      Update(rec1, JoinMembers(rec1, cgid, ev)) == rec1
  {
    JoinWrites(rec, cgid, ev);
    SettledByJoin(Update(rec, JoinMembers(rec, cgid, ev)), cgid, ev);
  }

  /** Joining the same goal again leaves the goals as the first join did and
      repeats its notice. */
  lemma JoinIdempotent(l: Ledger, ev: Obj)
    ensures Join(Join(l, ev).0, ev) == Join(l, ev)
  {
    var cgid := Get(ev, "CGID");
    if IsInt(cgid) {
      var id := IntOf(cgid);
      var rec := GoalRecord(l, id);
      JoinSettles(rec, cgid, ev);
      var rec1 := Update(rec, JoinMembers(rec, cgid, ev));
      var l1 := l.(communityGoals := l.communityGoals[id := rec1]);
      assert Join(l, ev).0 == l1;
      assert GoalRecord(l1, id) == rec1;
      assert l1.communityGoals[id := rec1] == l1.communityGoals;
    }
  }

  /** A goal snapshot with an int id merges every event field into the
      goal's record, which keeps its other fields; a non-int id changes nothing. */
  lemma GoalMerged(l: Ledger, c: Combat, ev: Obj, key: string)
    ensures var r := MiscSpec(l, c, JStr("CommunityGoal"), ev); var cgid := Get(ev, "CGID");
      (IsInt(cgid) ==> var rec := r.ledger.communityGoals[IntOf(cgid)]; var prev := GoalRecord(l, IntOf(cgid));
        (Has(ev, key) ==> Has(rec, key) && Get(rec, key) == Get(ev, key))
        && (!Has(ev, key) ==> (Has(rec, key) <==> Has(prev, key)) && Get(rec, key) == Get(prev, key)))
      && (!IsInt(cgid) ==> r.ledger == l)
      && r.combat == c && r.msgs == []
  {
  }

  /** Ship targeting takes the ship and the pilot only from non-blank strings,
      the localised pilot name first. */
  lemma TargetGuarded(l: Ledger, c: Combat, ev: Obj)
    ensures var r := MiscSpec(l, c, JStr("ShipTargeted"), ev);
      var pilot := Or(Get(ev, "PilotName_Localised"), Get(ev, "PilotName"));
      (IsNonBlankStr(Get(ev, "Ship")) ==> r.combat.lastTargetShip == Get(ev, "Ship"))
      && (!IsNonBlankStr(Get(ev, "Ship")) ==> r.combat.lastTargetShip == c.lastTargetShip)
      && (IsNonBlankStr(pilot) ==> r.combat.lastTargetPilot == pilot)
      && (!IsNonBlankStr(pilot) ==> r.combat.lastTargetPilot == c.lastTargetPilot)
      && r.combat.(lastTargetShip := c.lastTargetShip, lastTargetPilot := c.lastTargetPilot) == c
      && r.ledger == l && r.msgs == []
  {
  }

  /** A kind the handler does not claim changes nothing and sends nothing. */
  lemma MiscDeclines(l: Ledger, c: Combat, name: Json, ev: Obj)
    requires !Claims(name)
    ensures MiscSpec(l, c, name, ev) == MiscStep(l, c, false, [])
  {
  }

  /** The CommunityGoalJoin branch. */
  method JoinGoal(state: GameState, ev: Obj) returns (msgs: seq<string>)
    modifies state`ledger
    ensures (state.ledger, msgs) == Join(old(state.ledger), ev)
  {
    msgs := [];
    var cgid := Get(ev, "CGID");
    if IsInt(cgid) {
      var rec := GoalRecord(state.ledger, IntOf(cgid));
      rec := Update(rec, JoinMembers(rec, cgid, ev));
      state.ledger := state.ledger.(communityGoals := state.ledger.communityGoals[IntOf(cgid) := rec]);
      if Truthy(Get(rec, "Title")) {
        msgs := ["CG joined: " + Show(Get(rec, "Title"))];
      }
    }
  }

  /** `misc.handle(engine, name, event, msgs)`; `msgs` are the notices it appends. */
  method Handle(state: GameState, name: Json, ev: Obj) returns (handled: bool, msgs: seq<string>)
    modifies state`ledger, state`combat
    ensures MiscStep(state.ledger, state.combat, handled, msgs) == MiscSpec(old(state.ledger), old(state.combat), name, ev)
  {
    msgs := [];
    handled := true;
    if name == JStr("RedeemVoucher") {
      var amt := Get(ev, "Amount");
      if IsInt(amt) {
        state.ledger := state.ledger.(sessionVoucherEarnings := state.ledger.sessionVoucherEarnings + IntOf(amt));
        msgs := ["Voucher redeemed: " + IntCommas(IntOf(amt)) + " cr"];
      }
    } else if name == JStr("CommunityGoalJoin") {
      msgs := JoinGoal(state, ev);
    } else if name == JStr("CommunityGoal") {
      var cgid := Get(ev, "CGID");
      if IsInt(cgid) {
        var rec := GoalRecord(state.ledger, IntOf(cgid));
        rec := Update(rec, ev);
        state.ledger := state.ledger.(communityGoals := state.ledger.communityGoals[IntOf(cgid) := rec]);
      }
    } else if name == JStr("ShipTargeted") {
      var tgt := Get(ev, "Ship");
      if IsNonBlankStr(tgt) {
        state.combat := state.combat.(lastTargetShip := tgt);
      }
      var pilot := Or(Get(ev, "PilotName_Localised"), Get(ev, "PilotName"));
      if IsNonBlankStr(pilot) {
        state.combat := state.combat.(lastTargetPilot := pilot);
      }
    } else {
      handled := false;
    }
  }
}
