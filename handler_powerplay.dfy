/** The powerplay handler: the pledged power, its state, merits and rank. */
module PowerplayHandler {
  import opened PyText
  import opened PyJson
  import opened State

  /** The groups the handler may change, whether it claimed the event, and its notices. */
  datatype PowerplayStep = PowerplayStep(pledge: Pledge, handled: bool, msgs: seq<string>)

  /** The notice, sent only when a power is known; a missing state shows as "n/a". */
  function PledgeMessages(power: Json, powerState: Json): (r: seq<string>)
    ensures Truthy(power) ==> r == ["Powerplay: " + Show(power) + " (" + Show(Or(powerState, JStr("n/a"))) + ")"]
    ensures !Truthy(power) ==> r == []
  {
    if Truthy(power) then ["Powerplay: " + Show(power) + " (" + Show(Or(powerState, JStr("n/a"))) + ")"] else []
  }

  /** `powerplay.handle` on values. */
  function PowerplaySpec(p: Pledge, name: Json, ev: Obj): (r: PowerplayStep)
    ensures r.handled <==> name == JStr("Powerplay")
  {
    if name != JStr("Powerplay") then PowerplayStep(p, false, [])
    else
      var power := Or(Get(ev, "Power"), p.power);
      var powerState := Or(Get(ev, "State"), p.powerState);
      var merits := if IsInt(Get(ev, "Merits")) then Get(ev, "Merits") else p.powerMerits;
      var rank := if IsInt(Get(ev, "Rank")) then Get(ev, "Rank") else p.powerRank;
      PowerplayStep(p.(power := power, powerState := powerState, powerMerits := merits, powerRank := rank), true,
        PledgeMessages(power, powerState))
  }

  /** A missing or falsy Power or State keeps the previous one; merits and
      rank change only to ints; the inline branch's `pp_*` fields stay. */
  lemma PledgeKept(p: Pledge, ev: Obj)
    ensures var r := PowerplaySpec(p, JStr("Powerplay"), ev).pledge;
      (Truthy(Get(ev, "Power")) ==> r.power == Get(ev, "Power"))
      && (!Truthy(Get(ev, "Power")) ==> r.power == p.power)
      && (Truthy(Get(ev, "State")) ==> r.powerState == Get(ev, "State"))
      && (!Truthy(Get(ev, "State")) ==> r.powerState == p.powerState)
      && (IsInt(Get(ev, "Merits")) ==> r.powerMerits == Get(ev, "Merits"))
      && (!IsInt(Get(ev, "Merits")) ==> r.powerMerits == p.powerMerits)
      && (IsInt(Get(ev, "Rank")) ==> r.powerRank == Get(ev, "Rank"))
      && (!IsInt(Get(ev, "Rank")) ==> r.powerRank == p.powerRank)
      && r.(power := p.power, powerState := p.powerState, powerMerits := p.powerMerits, powerRank := p.powerRank) == p
  {
  }

  /** A notice is sent exactly when a power is known after the event. */
  lemma NoticeWhenPledged(p: Pledge, ev: Obj)
    ensures var r := PowerplaySpec(p, JStr("Powerplay"), ev);
      (r.msgs != [] <==> Truthy(r.pledge.power))
      && (r.msgs != [] && !Truthy(r.pledge.powerState) ==>
        r.msgs == ["Powerplay: " + Show(r.pledge.power) + " (n/a)"])
  {
    var r := PowerplaySpec(p, JStr("Powerplay"), ev);
    assert Show(JStr("n/a")) == "n/a";
    assert "Powerplay: " + Show(r.pledge.power) + " (" + "n/a" + ")" == "Powerplay: " + Show(r.pledge.power) + " (n/a)";
  }

  /** Any other kind changes nothing. */
  lemma PowerplayDeclines(p: Pledge, name: Json, ev: Obj)
    requires name != JStr("Powerplay")
    ensures PowerplaySpec(p, name, ev) == PowerplayStep(p, false, [])
  {
  }

  /** `powerplay.handle(engine, name, event, msgs)`; `msgs` are the notices it appends. */
  method Handle(state: GameState, name: Json, ev: Obj) returns (handled: bool, msgs: seq<string>)
    modifies state`pledge
    ensures PowerplayStep(state.pledge, handled, msgs) == PowerplaySpec(old(state.pledge), name, ev)
  {
    if name != JStr("Powerplay") {
      return false, [];
    }
    state.pledge := state.pledge.(power := Or(Get(ev, "Power"), state.pledge.power));
    state.pledge := state.pledge.(powerState := Or(Get(ev, "State"), state.pledge.powerState));
    var merit := Get(ev, "Merits");
    if IsInt(merit) {
      state.pledge := state.pledge.(powerMerits := merit);
    }
    var rank := Get(ev, "Rank");
    if IsInt(rank) {
      state.pledge := state.pledge.(powerRank := rank);
    }
    msgs := [];
    if Truthy(state.pledge.power) {
      msgs := ["Powerplay: " + Show(state.pledge.power) + " (" + Show(Or(state.pledge.powerState, JStr("n/a"))) + ")"];
    }
    handled := true;
  }
}
