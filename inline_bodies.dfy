/** The inline body branches of `EventEngine.process`: Scan, SAAScanComplete,
    FSSDiscoveryScan, FSSBodySignals and SAASignalsFound. Bodies are keyed by
    the whitespace-collapsed `BodyName`; each branch reads the event's fields
    once (the `...Facts` records) and the state change is a function of the
    old per-system data and those facts. */
module InlineBodies {
  import opened PyText
  import opened PyJson
  import opened State
  import opened EngineBase
  import PlanetValues

  /** The per-system data after a body branch, and how the branch ended. */
  datatype BodyStep = BodyStep(sys: SystemData, flow: Flow)

  /** `body_id_to_name[body_id] = body` for an int `BodyID`. */
  function Named(s: SystemData, bodyId: Json, body: string): (r: SystemData)
    ensures IsInt(bodyId) ==> r == s.(bodyIdToName := s.bodyIdToName[IntOf(bodyId) := body])
    ensures !IsInt(bodyId) ==> r == s
  {
    if IsInt(bodyId) then s.(bodyIdToName := s.bodyIdToName[IntOf(bodyId) := body]) else s
  }

  /** `body_id if isinstance(body_id, int) else None` */
  function IdOrNull(bodyId: Json): Json {
    if IsInt(bodyId) then bodyId else JNull
  }

  /** The stored record of a body, or `{}`. */
  function BodyOr(bodies: map<string, Obj>, body: string): Obj {
    if body in bodies then bodies[body] else []
  }

  // ---------------------------------------------------------------------------
  // Scan

  /** What the Scan branch reads from the event. */
  datatype ScanFacts = ScanFacts(
    body: string, planetClass: Json, bodyId: Json, terraformState: Json, distance: Json,
    landable: Json, volcanism: Json, materials: Json, wasDiscovered: bool, wasMapped: bool)

  function ScanFactsOf(ev: Obj): ScanFacts {
    ScanFacts(
      NormStr(Get(ev, "BodyName")), Or(Get(ev, "PlanetClass"), JStr("")), Get(ev, "BodyID"),
      Or(Get(ev, "TerraformState"), JStr("")), Get(ev, "DistanceFromArrivalLS"), Get(ev, "Landable"),
      Or(Or(Get(ev, "Volcanism_Localised"), Get(ev, "Volcanism")), JStr("")), Get(ev, "Materials"),
      Truthy(Get(ev, "WasDiscovered")), Truthy(Get(ev, "WasMapped")))
  }

  /** `bool(ts) and ts.lower() != "not terraformable"`; `None` when a truthy
      non-string has no `lower`. */
  function TerraformFlag(ts: Json): (r: Option<bool>)
    ensures r.None? <==> Truthy(ts) && !ts.JStr?
    ensures r == Some(true) <==> ts.JStr? && ts.s != [] && Lower(ts.s) != "not terraformable"
  {
    if !Truthy(ts) then Some(false)
    else if ts.JStr? then Some(Lower(ts.s) != "not terraformable")
    else None
  }

  /** The planet table's estimate, `None` when it raises; no table gives no estimate. */
  function ScanEstimate(planets: Option<PlanetValues.Table>, f: ScanFacts, tf: bool): Option<Json> {
    if planets.Some? then PlanetValues.EstimateJson(planets.value, f.planetClass, tf, f.wasMapped, !f.wasDiscovered)
    else Some(JNull)
  }

  /** The eleven members the branch writes, in the order it writes them. */
  function ScanMembers(f: ScanFacts, tf: bool, est: Json): Obj {
    [Member("BodyName", JStr(f.body)), Member("BodyID", IdOrNull(f.bodyId)), Member("PlanetClass", f.planetClass),
     Member("Terraformable", JBool(tf)), Member("DistanceLS", f.distance),
     Member("Landable", if f.landable.JBool? then f.landable else JNull),
     Member("Volcanism", if f.volcanism.JStr? then f.volcanism else JStr("")),
     Member("Materials", if f.materials.JObj? then f.materials else JObj([])),
     Member("FirstDiscovered", JBool(!f.wasDiscovered)), Member("Mapped", JBool(f.wasMapped)),
     Member("EstimatedValue", est)]
  }

  /** The signal counts and genera already known for the body, copied into its record. */
  function WithSignals(rec: Obj, s: SystemData, body: string): Obj {
    var r1 := if body in s.bioSignals then Put(rec, "BioSignals", s.bioSignals[body]) else rec;
    var r2 := if body in s.bioGenuses then Put(r1, "BioGenuses", JList(StrJsons(s.bioGenuses[body]))) else r1;
    if body in s.geoSignals then Put(r2, "GeoSignals", s.geoSignals[body]) else r2
  }

  /** The Scan branch: a blank name falls through untouched; no planet
      class returns; otherwise the id is named, the terraform state and the
      estimate are evaluated (either may raise), and the record is the old
      one updated with the eleven members and the known signals. */
  function ScanSpec(s: SystemData, planets: Option<PlanetValues.Table>, f: ScanFacts): BodyStep {
    if f.body == [] then BodyStep(s, Continue)
    else if !Truthy(f.planetClass) then BodyStep(s, Return)
    else
      var s1 := Named(s, f.bodyId, f.body);
      var tf := TerraformFlag(f.terraformState);
      if tf.None? then BodyStep(s1, Raised)
      else
        var est := ScanEstimate(planets, f, tf.value);
        if est.None? then BodyStep(s1, Raised)
        else
          var rec := ScanRecord(BodyOr(s.bodies, f.body), s, f, tf.value, est.value);
          BodyStep(s1.(bodies := s1.bodies[f.body := rec]), Continue)
  }

  /** A Scan of a named body without a planet class (a star, a belt) returns
      before touching anything, so the handler chain does not see it. */
  lemma ScanWithoutClassReturns(s: SystemData, planets: Option<PlanetValues.Table>, ev: Obj)
    requires NormStr(Get(ev, "BodyName")) != [] && !Truthy(Get(ev, "PlanetClass"))
    ensures ScanSpec(s, planets, ScanFactsOf(ev)) == BodyStep(s, Return)
  {
  }

  /** The record a completed Scan stores: the old one updated with the
      eleven members, then the known signals. */
  function ScanRecord(prev: Obj, s: SystemData, f: ScanFacts, tf: bool, est: Json): Obj {
    WithSignals(Update(prev, ScanMembers(f, tf, est)), s, f.body)
  }

  /** A completed Scan changes only the body's record and the id's name;
      the other bodies stay as they were. */
  lemma ScanTouchesOneBody(s: SystemData, planets: Option<PlanetValues.Table>, f: ScanFacts)
    requires ScanSpec(s, planets, f).flow == Continue && f.body != []
    ensures var r := ScanSpec(s, planets, f).sys;
      var tf := TerraformFlag(f.terraformState).value;
      r.bodies.Keys == s.bodies.Keys + {f.body}
      && r == Named(s, f.bodyId, f.body).(bodies := r.bodies)
      && (forall b :: b in s.bodies && b != f.body ==> r.bodies[b] == s.bodies[b])
      && r.bodies[f.body] == ScanRecord(BodyOr(s.bodies, f.body), s, f, tf, ScanEstimate(planets, f, tf).value)
  {
  }

  /** The known signals touch only their own three members. */
  lemma WithSignalsKeeps(rec: Obj, s: SystemData, body: string, k: string)
    requires k != "BioSignals" && k != "BioGenuses" && k != "GeoSignals"
    ensures Get(WithSignals(rec, s, body), k) == Get(rec, k)
    ensures Has(WithSignals(rec, s, body), k) <==> Has(rec, k)
  {
  }

  /** The eleven members as the update leaves them, and the old record's other members. */
  lemma ScanMembersFields(prev: Obj, f: ScanFacts, tf: bool, est: Json, k: string)
    requires k !in ["BodyName", "BodyID", "PlanetClass", "Terraformable", "DistanceLS", "Landable", "Volcanism",
      "Materials", "FirstDiscovered", "Mapped", "EstimatedValue"]
    ensures var r := Update(prev, ScanMembers(f, tf, est));
      Get(r, "BodyName") == JStr(f.body) && Get(r, "Mapped") == JBool(f.wasMapped)
      && Get(r, "FirstDiscovered") == JBool(!f.wasDiscovered) && Get(r, "EstimatedValue") == est
      && Get(r, k) == Get(prev, k) && (Has(r, k) <==> Has(prev, k))
  {
    var lit := ScanMembers(f, tf, est);
    GetAt(lit, 0);
    GetAt(lit, 8);
    GetAt(lit, 9);
    GetAt(lit, 10);
    assert !Has(lit, k) by {
      forall i | 0 <= i < |lit| ensures lit[i].key != k {
      }
    }
  }

  /** The stored record names the body, carries the estimate and the mapped
      and first-discovery flags, and keeps every member of the old record
      that the branch does not write. */
  lemma ScanRecordFields(prev: Obj, s: SystemData, f: ScanFacts, tf: bool, est: Json, k: string)
    requires k !in ["BodyName", "BodyID", "PlanetClass", "Terraformable", "DistanceLS", "Landable", "Volcanism",
      "Materials", "FirstDiscovered", "Mapped", "EstimatedValue", "BioSignals", "BioGenuses", "GeoSignals"]
    ensures var r := ScanRecord(prev, s, f, tf, est);
      Get(r, "BodyName") == JStr(f.body) && Get(r, "Mapped") == JBool(f.wasMapped)
      && Get(r, "FirstDiscovered") == JBool(!f.wasDiscovered) && Get(r, "EstimatedValue") == est
      && Get(r, k) == Get(prev, k) && (Has(r, k) <==> Has(prev, k))
  {
    var up := Update(prev, ScanMembers(f, tf, est));
    ScanMembersFields(prev, f, tf, est, k);
    WithSignalsKeeps(up, s, f.body, k);
    WithSignalsKeeps(up, s, f.body, "BodyName");
    WithSignalsKeeps(up, s, f.body, "Mapped");
    WithSignalsKeeps(up, s, f.body, "FirstDiscovered");
    WithSignalsKeeps(up, s, f.body, "EstimatedValue");
  }

  method Scan(e: EventEngine, ev: Obj) returns (flow: Flow)
    modifies e.state`sys
    ensures BodyStep(e.state.sys, flow) == ScanSpec(old(e.state.sys), e.planets, ScanFactsOf(ev))
  {
    var f := ScanFactsOf(ev);
    if f.body == [] {
      return Continue;
    }
    if !Truthy(f.planetClass) {
      return Return;
    }
    var s0 := e.state.sys;
    e.state.sys := Named(e.state.sys, f.bodyId, f.body);
    var tf := TerraformFlag(f.terraformState);
    if tf.None? {
      return Raised;
    }
    var est := ScanEstimate(e.planets, f, tf.value);
    if est.None? {
      return Raised;
    }
    var rec := Update(BodyOr(e.state.sys.bodies, f.body), ScanMembers(f, tf.value, est.value));
    rec := WithSignals(rec, s0, f.body);
    assert rec == ScanRecord(BodyOr(s0.bodies, f.body), s0, f, tf.value, est.value);
    e.state.sys := e.state.sys.(bodies := e.state.sys.bodies[f.body := rec]);
    flow := Continue;
  }

  // ---------------------------------------------------------------------------
  // SAAScanComplete

  /** A record after a branch that may raise half-way: the record as far as
      the branch got, and whether it raised. */
  datatype RecordStep = RecordStep(rec: Obj, raised: bool)

  /** The stored record marked mapped (in place, so a raising estimate keeps
      the mark) and, with a planet table and a class, re-estimated as mapped. */
  function SaaRecordStep(rec0: Obj, planets: Option<PlanetValues.Table>): RecordStep {
    var rec := Put(rec0, "Mapped", JBool(true));
    var pc := GetOr(rec, "PlanetClass", JStr(""));
    if planets.Some? && Truthy(pc) then
      var est := PlanetValues.EstimateJson(planets.value, pc, Truthy(Get(rec, "Terraformable")), true,
                                           Truthy(Get(rec, "FirstDiscovered")));
      if est.None? then RecordStep(rec, true)
      else RecordStep(Put(rec, "EstimatedValue", est.value), false)
    else RecordStep(rec, false)
  }

  /** The surface scan marks the record mapped and at most re-estimates it:
      every other member keeps its value, and a record without a class or
      without a table keeps its estimate too. */
  lemma SaaMarksMapped(rec0: Obj, planets: Option<PlanetValues.Table>, k: string)
    requires k != "Mapped" && k != "EstimatedValue"
    ensures var r := SaaRecordStep(rec0, planets).rec;
      Get(r, "Mapped") == JBool(true) && Get(r, k) == Get(rec0, k) && (Has(r, k) <==> Has(rec0, k))
    ensures planets.None? || !Truthy(GetOr(rec0, "PlanetClass", JStr(""))) ==>
      Get(SaaRecordStep(rec0, planets).rec, "EstimatedValue") == Get(rec0, "EstimatedValue")
  {
  }

  /** Completing the same surface scan again changes nothing more. */
  lemma {:induction false} SaaIdempotent(rec0: Obj, planets: Option<PlanetValues.Table>)
    requires !SaaRecordStep(rec0, planets).raised
    ensures SaaRecordStep(SaaRecordStep(rec0, planets).rec, planets) == SaaRecordStep(rec0, planets)
  {
    var rec := Put(rec0, "Mapped", JBool(true));
    var rec1 := SaaRecordStep(rec0, planets).rec;
    var pc := GetOr(rec, "PlanetClass", JStr(""));
    if planets.Some? && Truthy(pc) {
      var est := PlanetValues.EstimateJson(planets.value, pc, Truthy(Get(rec, "Terraformable")), true,
                                           Truthy(Get(rec, "FirstDiscovered")));
      assert rec1 == Put(rec, "EstimatedValue", est.value);
      assert Put(rec1, "Mapped", JBool(true)) == rec1 by {
        PutSame(rec1, "Mapped");
      }
      PutTwice(rec, "EstimatedValue", est.value, est.value);
    } else {
      assert rec1 == rec;
      PutTwice(rec0, "Mapped", JBool(true), JBool(true));
    }
  }

  /** A named body the scan has recorded gets the surface-scan update; any
      other SAAScanComplete changes nothing. */
  method SaaScanComplete(e: EventEngine, ev: Obj) returns (flow: Flow)
    modifies e.state`sys
    ensures var body := NormStr(Get(ev, "BodyName"));
      if body == [] || body !in old(e.state.sys.bodies) then e.state.sys == old(e.state.sys) && flow == Continue
      else
        var st := SaaRecordStep(old(e.state.sys.bodies[body]), e.planets);
        e.state.sys == old(e.state.sys).(bodies := old(e.state.sys.bodies)[body := st.rec])
        && flow == (if st.raised then Raised else Continue)
  {
    var body := NormStr(Get(ev, "BodyName"));
    if body == [] || body !in e.state.sys.bodies {
      return Continue;
    }
    var st := SaaRecordStep(e.state.sys.bodies[body], e.planets);
    e.state.sys := e.state.sys.(bodies := e.state.sys.bodies[body := st.rec]);
    flow := if st.raised then Raised else Continue;
  }

  // ---------------------------------------------------------------------------
  // FSSDiscoveryScan

  /** The system-wide honk: only the two counters change, each only from an int. */
  method FssDiscoveryScan(e: EventEngine, ev: Obj)
    modifies e.state`sys
    ensures var bc, nb := Get(ev, "BodyCount"), Get(ev, "NonBodyCount");
      e.state.sys == old(e.state.sys).(
        systemBodyCount := if IsInt(bc) then bc else old(e.state.sys.systemBodyCount),
        nonBodyCount := if IsInt(nb) then nb else old(e.state.sys.nonBodyCount))
  {
    var bc := Get(ev, "BodyCount");
    if IsInt(bc) {
      e.state.sys := e.state.sys.(systemBodyCount := bc);
    }
    var nb := Get(ev, "NonBodyCount");
    if IsInt(nb) {
      e.state.sys := e.state.sys.(nonBodyCount := nb);
    }
  }

  // ---------------------------------------------------------------------------
  // Signal counts (FSSBodySignals and SAASignalsFound)

  /** One `Signals` entry: it raises, or it gives the biological and the
      geological count it sets, if any. */
  datatype Sighting = Fault | Counts(bio: Option<Json>, geo: Option<Json>)

  /** `word in t.lower()`, else `tl.strip().lower() == word`; a non-string
      `tl` reached here raises, which `EntryOf` reports. */
  predicate Names(t: string, tl: Json, word: string) {
    Contains(Lower(t), word) || (tl.JStr? && Lower(Strip(tl.s)) == word)
  }

  /** The entry as the loop body reads it: a non-dict, a non-string `Type`,
      or a non-string `Type_Localised` that one of the two tests reaches,
      raises; a matching test with an int `Count` sets that count. */
  function EntryOf(item: Json): (r: Sighting)
    ensures !item.JObj? ==> r.Fault?
  {
    if !item.JObj? then Fault
    else
      var t := Or(Get(item.members, "Type"), JStr(""));
      var tl := Or(Get(item.members, "Type_Localised"), JStr(""));
      if !t.JStr? then Fault
      else if !tl.JStr? && !(Contains(Lower(t.s), "biological") && Contains(Lower(t.s), "geological")) then Fault
      else
        var c := GetOr(item.members, "Count", JInt(0));
        Counts(if Names(t.s, tl, "biological") && IsInt(c) then Some(c) else None,
               if Names(t.s, tl, "geological") && IsInt(c) then Some(c) else None)
  }

  /** Each entry of the list as the loop reads it. */
  function Sightings(items: seq<Json>): (r: seq<Sighting>)
    ensures |r| == |items|
  {
    if items == [] then [] else [EntryOf(items[0])] + Sightings(items[1..])
  }

  lemma {:induction false} SightingsAt(items: seq<Json>, i: nat)
    requires i < |items|
    ensures Sightings(items)[i] == EntryOf(items[i])
  {
    if i > 0 {
      SightingsAt(items[1..], i - 1);
    }
  }

  /** The two counts after the first `n` entries: the last set value wins,
      0 when none sets one; `None` once an entry raises. */
  function TallyUpTo(rows: seq<Sighting>, n: nat): Option<(Json, Json)>
    requires n <= |rows|
  {
    if n == 0 then Some((JInt(0), JInt(0)))
    else
      match TallyUpTo(rows, n - 1)
      case None => None
      case Some(prev) =>
        match rows[n - 1]
        case Fault => None
        case Counts(b, g) => Some((if b.Some? then b.value else prev.0, if g.Some? then g.value else prev.1))
  }

  /** The counts of the whole list. */
  function Tally(items: seq<Json>): Option<(Json, Json)> {
    TallyUpTo(Sightings(items), |items|)
  }

  /** The loop raises exactly when some entry faults. */
  lemma {:induction false} TallyFaults(rows: seq<Sighting>, n: nat)
    requires n <= |rows|
    ensures TallyUpTo(rows, n).None? <==> exists i :: 0 <= i < n && rows[i].Fault?
  {
    if n > 0 {
      TallyFaults(rows, n - 1);
    }
  }

  /** Without a fault, the biological count is the one the last setting
      entry gives. */
  lemma {:induction false} TallyLastBio(rows: seq<Sighting>, n: nat, i: nat)
    requires i < n <= |rows|
    requires TallyUpTo(rows, n).Some?
    requires rows[i].Counts? && rows[i].bio.Some?
    requires forall j :: i < j < n ==> rows[j].Counts? && rows[j].bio.None?
    ensures TallyUpTo(rows, n).value.0 == rows[i].bio.value
  {
    if i < n - 1 {
      TallyLastBio(rows, n - 1, i);
    }
  }

  /** Without a fault and without a setting entry the biological count is 0. */
  lemma {:induction false} TallyNoBio(rows: seq<Sighting>, n: nat)
    requires n <= |rows|
    requires TallyUpTo(rows, n).Some?
    requires forall j :: 0 <= j < n ==> rows[j].Counts? && rows[j].bio.None?
    ensures TallyUpTo(rows, n).value.0 == JInt(0)
  {
    if n > 0 {
      TallyNoBio(rows, n - 1);
    }
  }

  method CountSignals(items: seq<Json>) returns (r: Option<(Json, Json)>)
    ensures r == Tally(items)
  {
    var rows := Sightings(items);
    var bio := JInt(0);
    var geo := JInt(0);
    var i := 0;
    while i < |rows|
      invariant i <= |rows|
      invariant TallyUpTo(rows, i) == Some((bio, geo))
    {
      var entry := rows[i];
      if entry.Fault? {
        TallyFaults(rows, |rows|);
        return None;
      }
      if entry.bio.Some? {
        bio := entry.bio.value;
      }
      if entry.geo.Some? {
        geo := entry.geo.value;
      }
      i := i + 1;
    }
    r := Some((bio, geo));
  }

  /** The record a signal branch starts from when the body has none. */
  function Placeholder(body: string, bodyId: Json): Obj {
    [Member("BodyName", JStr(body)), Member("BodyID", IdOrNull(bodyId)), Member("PlanetClass", JStr("")),
     Member("DistanceLS", JNull), Member("EstimatedValue", JNull), Member("Terraformable", JBool(false)),
     Member("FirstDiscovered", JBool(false)), Member("Mapped", JBool(false))]
  }

  /** The existing record or the placeholder, with an int `BodyID` written over it. */
  function SignalBase(s: SystemData, body: string, bodyId: Json): Obj {
    var rec := if body in s.bodies then s.bodies[body] else Placeholder(body, bodyId);
    if IsInt(bodyId) then Put(rec, "BodyID", bodyId) else rec
  }

  /** What the two signal branches read from the event. */
  datatype SignalFacts = SignalFacts(body: string, bodyId: Json, signals: Json, genuses: Json)

  function SignalFactsOf(ev: Obj): SignalFacts {
    SignalFacts(NormStr(Get(ev, "BodyName")), Get(ev, "BodyID"), Or(Get(ev, "Signals"), JList([])),
                Or(Get(ev, "Genuses"), JList([])))
  }

  // ---------------------------------------------------------------------------
  // FSSBodySignals

  /** The FSS hint: both counts are stored for the body (0 when absent) and
      copied into its record, which is created as a placeholder if needed. */
  function FssSignalsSpec(s: SystemData, f: SignalFacts): BodyStep {
    if f.body == [] then BodyStep(s, Return)
    else
      var s1 := Named(s, f.bodyId, f.body);
      var items := RecordLoop(f.signals);
      if items.None? then BodyStep(s1, Raised)
      else
        var tally := Tally(items.value);
        if tally.None? then BodyStep(s1, Raised)
        else BodyStep(FssStore(s1, f.body, f.bodyId, tally.value.0, tally.value.1), Continue)
  }

  /** The stores that end a completed FSSBodySignals. */
  function FssStore(s: SystemData, body: string, bodyId: Json, bio: Json, geo: Json): SystemData {
    var rec := Put(Put(SignalBase(s, body, bodyId), "BioSignals", bio), "GeoSignals", geo);
    s.(bioSignals := s.bioSignals[body := bio], geoSignals := s.geoSignals[body := geo],
       bodies := s.bodies[body := rec])
  }

  /** After a completed FSSBodySignals the body's record carries exactly the
      counts stored for it, names the body when it was new, and the other
      bodies are untouched. */
  lemma FssSignalsRecord(s: SystemData, body: string, bodyId: Json, bio: Json, geo: Json)
    ensures var r := FssStore(s, body, bodyId, bio, geo);
      r.bioSignals[body] == bio && r.geoSignals[body] == geo
      && Get(r.bodies[body], "BioSignals") == bio && Get(r.bodies[body], "GeoSignals") == geo
      && (body !in s.bodies ==> Get(r.bodies[body], "BodyName") == JStr(body))
      && (IsInt(bodyId) ==> Get(r.bodies[body], "BodyID") == bodyId)
      && (forall b :: b in s.bodies && b != body ==> r.bodies[b] == s.bodies[b])
  {
    if body !in s.bodies {
      GetAt(Placeholder(body, bodyId), 0);
    }
  }

  method FssBodySignals(e: EventEngine, ev: Obj) returns (flow: Flow)
    modifies e.state`sys
    ensures BodyStep(e.state.sys, flow) == FssSignalsSpec(old(e.state.sys), SignalFactsOf(ev))
  {
    var f := SignalFactsOf(ev);
    if f.body == [] {
      return Return;
    }
    e.state.sys := Named(e.state.sys, f.bodyId, f.body);
    var items := RecordLoop(f.signals);
    if items.None? {
      return Raised;
    }
    var tally := CountSignals(items.value);
    if tally.None? {
      return Raised;
    }
    var (bio, geo) := tally.value;
    e.state.sys := FssStore(e.state.sys, f.body, f.bodyId, bio, geo);
    flow := Continue;
  }

  // ---------------------------------------------------------------------------
  // SAASignalsFound

  /** `event.get("Genuses") or []` as the loop iterates it: a string's
      characters and a dict's keys are all skipped as non-dicts; a truthy
      number cannot be iterated and raises (`None`). */
  function GenusItems(v: Json): (r: Option<seq<Json>>)
    ensures v.JList? ==> r == Some(v.items)
    ensures r.None? <==> Truthy(v) && IsNumber(v)
  {
    if !Truthy(v) then Some([])
    else if v.JList? then Some(v.items)
    else if v.JStr? || v.JObj? then Some([])
    else None
  }

  /** The genus an entry names: the localised name, else the raw one; a
      non-dict names nothing. */
  function GenusOf(item: Json): Json {
    if item.JObj? then Or(Get(item.members, "Genus_Localised"), Get(item.members, "Genus")) else JNull
  }

  function GenusJsons(items: seq<Json>): (r: seq<Json>)
    ensures |r| == |items|
  {
    if items == [] then [] else [GenusOf(items[0])] + GenusJsons(items[1..])
  }

  /** Entry `i` contributes the genus it names. */
  lemma {:induction false} GenusJsonsAt(items: seq<Json>, i: nat)
    requires i < |items|
    ensures GenusJsons(items)[i] == GenusOf(items[i])
  {
    if i > 0 {
      GenusJsonsAt(items[1..], i - 1);
    }
  }

  /** The normalised non-empty genera, in order, with repeats. */
  method CollectGenuses(items: seq<Json>) returns (names: seq<string>)
    ensures names == CleanUpTo(GenusJsons(items), |items|)
  {
    ghost var gs := GenusJsons(items);
    names := [];
    var i := 0;
    while i < |items|
      invariant i <= |items|
      invariant names == CleanUpTo(gs, i)
    {
      GenusJsonsAt(items, i);
      if !items[i].JObj? {
        i := i + 1;
        continue;
      }
      var gn := NormStr(Or(Get(items[i].members, "Genus_Localised"), Get(items[i].members, "Genus")));
      CleanStep(gs, i, gn);
      if gn != [] {
        names := names + [gn];
      }
      i := i + 1;
    }
  }

  /** The first `n` names with later repeats dropped. */
  function DedupeUpTo(xs: seq<string>, n: nat): (r: seq<string>)
    requires n <= |xs|
  {
    if n == 0 then []
    else
      var prev := DedupeUpTo(xs, n - 1);
      if xs[n - 1] in prev then prev else prev + [xs[n - 1]]
  }

  /** Deduplication keeps each name exactly once: the same names, none twice. */
  lemma {:induction false} DedupeSound(xs: seq<string>, n: nat)
    requires n <= |xs|
    ensures forall x :: x in DedupeUpTo(xs, n) <==> x in xs[..n]
    ensures forall i, j :: 0 <= i < j < |DedupeUpTo(xs, n)| ==> DedupeUpTo(xs, n)[i] != DedupeUpTo(xs, n)[j]
  {
    if n > 0 {
      DedupeSound(xs, n - 1);
      var prev := DedupeUpTo(xs, n - 1);
      assert xs[..n] == xs[..n - 1] + [xs[n - 1]];
      if xs[n - 1] !in prev {
        var r := prev + [xs[n - 1]];
        forall i, j | 0 <= i < j < |r| ensures r[i] != r[j] {
          if j == |prev| {
            assert r[i] == prev[i];
          } else {
            assert r[i] == prev[i] && r[j] == prev[j];
          }
        }
      }
    }
  }

  /** Deduplication keeps the first occurrence of each name in place. */
  lemma {:induction false} DedupeKeepsFirst(xs: seq<string>, n: nat, i: nat)
    requires i < n <= |xs| && xs[i] !in xs[..i]
    ensures DedupeUpTo(xs, i + 1) == DedupeUpTo(xs, i) + [xs[i]]
  {
    DedupeSound(xs, i);
  }

  method Dedupe(xs: seq<string>) returns (cleaned: seq<string>)
    ensures cleaned == DedupeUpTo(xs, |xs|)
  {
    var seen: set<string> := {};
    cleaned := [];
    var i := 0;
    while i < |xs|
      invariant i <= |xs|
      invariant cleaned == DedupeUpTo(xs, i)
      invariant forall x :: x in seen <==> x in cleaned
    {
      if xs[i] !in seen {
        cleaned := cleaned + [xs[i]];
        seen := seen + {xs[i]};
      }
      i := i + 1;
    }
  }

  /** The genera the DSS scan confirms for the body. */
  function GenusList(items: seq<Json>): seq<string> {
    var names := CleanUpTo(GenusJsons(items), |items|);
    DedupeUpTo(names, |names|)
  }

  /** The stored genera are non-empty, normalised, listed once each, and
      exactly the names the entries give. */
  lemma GenusListSound(items: seq<Json>)
    ensures var g := GenusList(items); var names := CleanUpTo(GenusJsons(items), |items|);
      (forall x :: x in g <==> x in names)
      && (forall i, j :: 0 <= i < j < |g| ==> g[i] != g[j])
      && (forall i :: 0 <= i < |g| ==> g[i] != [] && NormStr(JStr(g[i])) == g[i])
  {
    var names := CleanUpTo(GenusJsons(items), |items|);
    DedupeSound(names, |names|);
    CleanUpToNormal(GenusJsons(items), |items|);
    assert names[..|names|] == names;
    var g := GenusList(items);
    forall i | 0 <= i < |g| ensures g[i] != [] && NormStr(JStr(g[i])) == g[i] {
      assert g[i] in names;
    }
  }

  /** The DSS result: the biological count only when truthy, the genera
      only when there are any (the geological count is read but not kept),
      and the record takes each of the three from the state, else keeps its own. */
  function SaaSignalsSpec(s: SystemData, f: SignalFacts): BodyStep {
    if f.body == [] then BodyStep(s, Return)
    else
      var s1 := Named(s, f.bodyId, f.body);
      var items := RecordLoop(f.signals);
      if items.None? then BodyStep(s1, Raised)
      else
        var tally := Tally(items.value);
        if tally.None? then BodyStep(s1, Raised)
        else
          var s2 := StoreBio(s1, f.body, tally.value.0);
          var gitems := GenusItems(f.genuses);
          if gitems.None? then BodyStep(s2, Raised)
          else BodyStep(SaaStore(s2, f.body, f.bodyId, GenusList(gitems.value)), Continue)
  }

  /** `if bio: bio_signals[body] = bio` */
  function StoreBio(s: SystemData, body: string, bio: Json): SystemData {
    if Truthy(bio) then s.(bioSignals := s.bioSignals[body := bio]) else s
  }

  /** The genera stored when there are any, then the record. */
  function SaaStore(s: SystemData, body: string, bodyId: Json, g: seq<string>): SystemData {
    var s3 := if g != [] then s.(bioGenuses := s.bioGenuses[body := g]) else s;
    s3.(bodies := s3.bodies[body := SaaRecord(s3, body, bodyId)])
  }

  /** The record after the DSS result: the base record with the three signal
      members read from the state, each defaulting to the record's own. */
  function SaaRecord(s: SystemData, body: string, bodyId: Json): Obj {
    var r0 := SignalBase(s, body, bodyId);
    var r1 := Put(r0, "BioSignals", if body in s.bioSignals then s.bioSignals[body] else GetOr(r0, "BioSignals", JInt(0)));
    var r2 := Put(r1, "BioGenuses",
      if body in s.bioGenuses then JList(StrJsons(s.bioGenuses[body])) else GetOr(r1, "BioGenuses", JList([])));
    Put(r2, "GeoSignals", if body in s.geoSignals then s.geoSignals[body] else GetOr(r2, "GeoSignals", JInt(0)))
  }

  /** After a completed SAASignalsFound the record shows the genera the
      state holds for the body: a non-empty genus list from this event
      replaces the stored one, an empty one keeps it; a falsy biological
      count keeps the stored count. */
  lemma SaaSignalsRecord(s: SystemData, body: string, bodyId: Json, bio: Json, g: seq<string>)
    ensures var r := SaaStore(StoreBio(s, body, bio), body, bodyId, g);
      (g != [] ==> (r.bioGenuses[body] == g && Get(r.bodies[body], "BioGenuses") == JList(StrJsons(g))))
      && (g == [] ==> r.bioGenuses == s.bioGenuses)
      && (Truthy(bio) ==> Get(r.bodies[body], "BioSignals") == bio)
      && (!Truthy(bio) ==> r.bioSignals == s.bioSignals)
  {
    var s2 := StoreBio(s, body, bio);
    var s3 := if g != [] then s2.(bioGenuses := s2.bioGenuses[body := g]) else s2;
    SaaRecordReads(s3, body, bodyId);
  }

  /** The DSS result leaves the geological counts and the other bodies' records alone. */
  lemma SaaStoreFrame(s: SystemData, body: string, bodyId: Json, bio: Json, g: seq<string>)
    ensures var r := SaaStore(StoreBio(s, body, bio), body, bodyId, g);
      r.geoSignals == s.geoSignals
      && (forall b :: b in s.bodies && b != body ==> r.bodies[b] == s.bodies[b])
  {
  }

  /** The record's genus list and biological count are the state's, when the state has them. */
  lemma SaaRecordReads(s: SystemData, body: string, bodyId: Json)
    ensures var r := SaaRecord(s, body, bodyId);
      (body in s.bioGenuses ==> Get(r, "BioGenuses") == JList(StrJsons(s.bioGenuses[body])))
      && (body in s.bioSignals ==> Get(r, "BioSignals") == s.bioSignals[body])
  {
  }

  method SaaSignalsFound(e: EventEngine, ev: Obj) returns (flow: Flow)
    modifies e.state`sys
    ensures BodyStep(e.state.sys, flow) == SaaSignalsSpec(old(e.state.sys), SignalFactsOf(ev))
  {
    var f := SignalFactsOf(ev);
    if f.body == [] {
      return Return;
    }
    e.state.sys := Named(e.state.sys, f.bodyId, f.body);
    var items := RecordLoop(f.signals);
    if items.None? {
      return Raised;
    }
    var tally := CountSignals(items.value);
    if tally.None? {
      return Raised;
    }
    e.state.sys := StoreBio(e.state.sys, f.body, tally.value.0);
    var gitems := GenusItems(f.genuses);
    if gitems.None? {
      return Raised;
    }
    var names := CollectGenuses(gitems.value);
    var cleaned := Dedupe(names);
    e.state.sys := SaaStore(e.state.sys, f.body, f.bodyId, cleaned);
    flow := Continue;
  }
}
