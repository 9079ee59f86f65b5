/** The exobiology handler: the last organic scan with its notice, and the
    handler's own organic-data ledger. */
module ExobioHandler {
  import opened PyText
  import opened PyJson
  import opened State

  const Kinds: seq<string> := ["ScanOrganic", "SellOrganicData"]

  predicate Claims(name: Json) {
    name.JStr? && name.s in Kinds
  }

  /** The groups the handler may change, whether it claimed the event, and its notices. */
  datatype ExobioStep = ExobioStep(survey: Survey, ledger: Ledger, handled: bool, msgs: seq<string>)

  /** The scan notice: genus and species when both are non-blank strings,
      the genus alone when only it is, nothing when the genus is blank. */
  function ScanMessages(genus: Json, species: Json): (r: seq<string>)
    ensures |r| <= 1 && (r != [] <==> IsNonBlankStr(genus))
    ensures IsNonBlankStr(genus) && IsNonBlankStr(species) ==> r == ["Exobio scan: " + genus.s + " / " + species.s]
    ensures IsNonBlankStr(genus) && !IsNonBlankStr(species) ==> r == ["Exobio scan: " + genus.s]
  {
    if !IsNonBlankStr(genus) then []
    else if IsNonBlankStr(species) then ["Exobio scan: " + genus.s + " / " + species.s]
    else ["Exobio scan: " + genus.s]
  }

  /** `exobio.handle` on values. The value estimate the source attempts calls
      a method the exobiology table does not have; the error is swallowed,
      so the last organic value never changes. */
  function ExobioSpec(sv: Survey, l: Ledger, name: Json, ev: Obj): (r: ExobioStep)
    ensures r.handled <==> Claims(name)
  {
    if name == JStr("ScanOrganic") then
      var body := Get(ev, "BodyName");
      var sv1 := if IsNonBlankStr(body) then sv.(lastBody := body) else sv;
      ExobioStep(sv1.(lastOrganicScan := JObj(ev)), l, true, ScanMessages(Get(ev, "Genus"), Get(ev, "Species")))
    else if name == JStr("SellOrganicData") then
      var total := Get(ev, "BioDataValue");
      if IsInt(total) then
        ExobioStep(sv, l.(sessionExobioEarnings := l.sessionExobioEarnings + IntOf(total)), true,
          ["Exobio sold: " + IntCommas(IntOf(total)) + " cr"])
      else ExobioStep(sv, l, true, [])
    else ExobioStep(sv, l, false, [])
  }

  /** A ScanOrganic always records the event as the last scan, moves the last
      body only to a non-blank name, never changes the last organic value and
      leaves the ledgers alone. */
  lemma ScanRecorded(sv: Survey, l: Ledger, ev: Obj)
    ensures var r := ExobioSpec(sv, l, JStr("ScanOrganic"), ev);
      r.handled && r.survey.lastOrganicScan == JObj(ev) && r.survey.lastOrganicValue == sv.lastOrganicValue
      && (IsNonBlankStr(Get(ev, "BodyName")) ==> r.survey.lastBody == Get(ev, "BodyName"))
      && (!IsNonBlankStr(Get(ev, "BodyName")) ==> r.survey.lastBody == sv.lastBody)
      && r.survey.(lastBody := sv.lastBody, lastOrganicScan := sv.lastOrganicScan) == sv
      && r.ledger == l
  {
  }

  /** The handler's sale adds an int `BioDataValue` to its own ledger, not to
      the inline branch's `session_exo_earnings`. */
  lemma SaleSeparate(sv: Survey, l: Ledger, ev: Obj)
    ensures var r := ExobioSpec(sv, l, JStr("SellOrganicData"), ev);
      var total := Get(ev, "BioDataValue");
      (IsInt(total) ==> r.ledger.sessionExobioEarnings == l.sessionExobioEarnings + IntOf(total))
      && (!IsInt(total) ==> r.ledger == l && r.msgs == [])
      && r.ledger.sessionExoEarnings == l.sessionExoEarnings
      && r.ledger.(sessionExobioEarnings := l.sessionExobioEarnings) == l && r.survey == sv
  {
  }

  /** A kind the handler does not claim changes nothing and sends nothing. */
  lemma ExobioDeclines(sv: Survey, l: Ledger, name: Json, ev: Obj)
    requires !Claims(name)
    ensures ExobioSpec(sv, l, name, ev) == ExobioStep(sv, l, false, [])
  {
  }

  /** `exobio.handle(engine, name, event, msgs)`; `msgs` are the notices it appends. */
  method Handle(state: GameState, name: Json, ev: Obj) returns (handled: bool, msgs: seq<string>)
    modifies state`survey, state`ledger
    ensures ExobioStep(state.survey, state.ledger, handled, msgs) == ExobioSpec(old(state.survey), old(state.ledger), name, ev)
  {
    msgs := [];
    handled := true;
    if name == JStr("ScanOrganic") {
      var body := Get(ev, "BodyName");
      var genus := Get(ev, "Genus");
      var species := Get(ev, "Species");
      if IsNonBlankStr(body) {
        state.survey := state.survey.(lastBody := body);
      }
      state.survey := state.survey.(lastOrganicScan := JObj(ev));
      if IsNonBlankStr(genus) {
        if IsNonBlankStr(species) {
          msgs := ["Exobio scan: " + genus.s + " / " + species.s];
        } else {
          msgs := ["Exobio scan: " + genus.s];
        }
      }
    } else if name == JStr("SellOrganicData") {
      var total := Get(ev, "BioDataValue");
      if IsInt(total) {
        state.ledger := state.ledger.(sessionExobioEarnings := state.ledger.sessionExobioEarnings + IntOf(total));
        msgs := ["Exobio sold: " + IntCommas(IntOf(total)) + " cr"];
      }
    } else {
      handled := false;
    }
  }
}
