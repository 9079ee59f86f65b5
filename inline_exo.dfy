/** The inline exobiology branches of `EventEngine.process`: ScanOrganic,
    CodexEntry and SellOrganicData. The exobiology records live in the
    ordered `exo` dict, keyed `"<body>|<genus>|<species>"` for sampling
    progress and `"<body>|<genus>|CODEX"` for the placeholders a codex
    entry leaves before any sample is taken. */
module InlineExo {
  import opened PyText
  import opened PyJson
  import opened PyDict
  import opened State
  import opened EngineBase
  import ExoValues

  /** The exobiology records after a branch, and how the branch ended. */
  datatype ExoStep = ExoStep(exo: Dict<string, Obj>, flow: Flow)

  // ---------------------------------------------------------------------------
  // Keys and the removal loops over a snapshot of the key order

  /** `s.split(c)` of `a + c + rest` starts with `a` when `a` has no `c`. */
  lemma SplitCharAfter(a: string, c: char, rest: string)
    requires c !in a
    ensures SplitChar(a + [c] + rest, c) == [a] + SplitChar(rest, c)
  {
    var s := a + [c] + rest;
    assert s[|a|] == c;
    var i := FirstIndex(s, c);
    assert s[..|a|] == a;
    assert i == |a|;
    assert s[i + 1..] == rest;
  }

  /** The three `|`-separated parts of a key built from parts without `|`. */
  lemma KeyParts(a: string, b: string, c: string)
    requires '|' !in a && '|' !in b && '|' !in c
    ensures SplitChar(a + "|" + b + "|" + c, '|') == [a, b, c]
  {
    SplitCharAfter(b, '|', c);
    assert a + "|" + b + "|" + c == a + ['|'] + (b + ['|'] + c);
    SplitCharAfter(a, '|', b + ['|'] + c);
  }

  /** A codex placeholder key of `body` whose genus part normalises to `genus`. */
  predicate CodexPlaceholder(k: string, bodyKey: string, genus: string) {
    StartsWith(k, bodyKey + "|")
    && var parts := SplitChar(k, '|');
    |parts| >= 3 && parts[0] == bodyKey && parts[2] == "CODEX" && NormStr(JStr(parts[1])) == genus
  }

  /** Which keys a removal loop drops. */
  datatype DropRule =
    | CodexOf(bodyKey: string, genus: string)
    | UnderPrefix(prefix: string)

  predicate Drops(rule: DropRule, k: string) {
    match rule
    case CodexOf(b, g) => CodexPlaceholder(k, b, g)
    case UnderPrefix(p) => StartsWith(k, p)
  }

  /** The dict once a removal loop has visited the first `n` snapshot keys. */
  function DropUpTo(d: Dict<string, Obj>, keys: seq<string>, n: nat, rule: DropRule): Dict<string, Obj>
    requires n <= |keys|
  {
    if n == 0 then d
    else
      var r := DropUpTo(d, keys, n - 1, rule);
      if Drops(rule, keys[n - 1]) then Remove(r, keys[n - 1]) else r
  }

  /** A key survives the loop exactly when it was there and the loop did not
      visit it or the rule spares it; the survivors keep their records. */
  lemma {:induction false} DropUpToEntries(d: Dict<string, Obj>, keys: seq<string>, n: nat, rule: DropRule, k: string)
    requires n <= |keys|
    ensures var r := DropUpTo(d, keys, n, rule);
      (k in r.entries <==> k in d.entries && !(k in keys[..n] && Drops(rule, k)))
      && (k in r.entries ==> r.entries[k] == d.entries[k])
  {
    if n > 0 {
      DropUpToEntries(d, keys, n - 1, rule, k);
      assert keys[..n] == keys[..n - 1] + [keys[n - 1]];
    }
  }

  /** Over the whole key order of a valid dict: exactly the keys the rule drops go. */
  lemma DropAllEntries(d: Dict<string, Obj>, rule: DropRule, k: string)
    requires DictValid(d)
    ensures var r := DropUpTo(d, d.order, |d.order|, rule);
      (k in r.entries <==> k in d.entries && !Drops(rule, k))
      && (k in r.entries ==> r.entries[k] == d.entries[k])
  {
    DropUpToEntries(d, d.order, |d.order|, rule, k);
    assert d.order[..|d.order|] == d.order;
  }

  lemma {:induction false} DropUpToValid(d: Dict<string, Obj>, keys: seq<string>, n: nat, rule: DropRule)
    requires n <= |keys| && DictValid(d)
    ensures DictValid(DropUpTo(d, keys, n, rule))
  {
    if n > 0 {
      DropUpToValid(d, keys, n - 1, rule);
      if Drops(rule, keys[n - 1]) {
        RemoveValid(DropUpTo(d, keys, n - 1, rule), keys[n - 1]);
      }
    }
  }

  /** A loop that finds nothing to drop leaves a valid dict as it was. */
  lemma {:induction false} DropNothing(d: Dict<string, Obj>, keys: seq<string>, n: nat, rule: DropRule)
    requires n <= |keys| && DictValid(d)
    requires forall k :: k in d.entries ==> !Drops(rule, k)
    ensures DropUpTo(d, keys, n, rule) == d
  {
    if n > 0 {
      DropNothing(d, keys, n - 1, rule);
      if Drops(rule, keys[n - 1]) {
        RemoveAbsent(d, keys[n - 1]);
      }
    }
  }

  /** `for k in list(exo.keys()): if <rule>: del exo[k]` */
  method DropKeys(d: Dict<string, Obj>, keys: seq<string>, rule: DropRule) returns (r: Dict<string, Obj>)
    ensures r == DropUpTo(d, keys, |keys|, rule)
  {
    r := d;
    var i := 0;
    while i < |keys|
      invariant i <= |keys|
      invariant r == DropUpTo(d, keys, i, rule)
    {
      if Drops(rule, keys[i]) {
        r := Remove(r, keys[i]);
      }
      i := i + 1;
    }
  }

  // ---------------------------------------------------------------------------
  // Migrating legacy per-variant records into the per-species record

  /** `rec[fld] = old[fld]` when the record's own value is empty and the old one is not. */
  function Fill(rec: Obj, legacy: Obj, fld: string): (r: Obj)
    ensures Emptyish(Get(rec, fld)) && !Emptyish(Get(legacy, fld)) ==> Get(r, fld) == Get(legacy, fld)
    ensures !Emptyish(Get(rec, fld)) ==> r == rec
  {
    if Emptyish(Get(rec, fld)) && !Emptyish(Get(legacy, fld)) then Put(rec, fld, Get(legacy, fld)) else rec
  }

  /** The fields a legacy record fills in when the current record lacks them. */
  const FillFields: seq<string> := ["Variant", "BaseValue", "PotentialValue", "LastScanType"]

  /** `for fld in flds: <fill>` */
  function FillAll(rec: Obj, legacy: Obj, flds: seq<string>): Obj
    decreases |flds|
  {
    if flds == [] then rec else FillAll(Fill(rec, legacy, flds[0]), legacy, flds[1..])
  }

  /** A field with a value of its own keeps it; a field outside the list is not touched. */
  lemma {:induction false} FillAllKeeps(rec: Obj, legacy: Obj, flds: seq<string>, fld: string)
    requires !Emptyish(Get(rec, fld)) || fld !in flds
    ensures Get(FillAll(rec, legacy, flds), fld) == Get(rec, fld)
    decreases |flds|
  {
    if flds != [] {
      var r := Fill(rec, legacy, flds[0]);
      assert Get(r, fld) == Get(rec, fld);
      FillAllKeeps(r, legacy, flds[1..], fld);
    }
  }

  /** `int(d.get("Samples", 0) or 0)`; `None` when `int` raises. */
  function SamplesOf(rec: Obj): Option<int> {
    PyInt(Or(GetOr(rec, "Samples", JInt(0)), JInt(0)))
  }

  /** One legacy record folded into the current one. */
  function MergeLegacy(rec: Obj, legacy: Obj): Obj {
    var a := SamplesOf(rec);
    var b := SamplesOf(legacy);
    var r1 := if a.Some? && b.Some? then Put(rec, "Samples", JInt(if a.value >= b.value then a.value else b.value)) else rec;
    var r2 := Put(r1, "Complete", JBool(Truthy(Get(r1, "Complete")) || Truthy(Get(legacy, "Complete"))));
    FillAll(r2, legacy, FillFields)
  }

  /** The merge keeps the larger sample count when both convert. */
  lemma MergeSamples(rec: Obj, legacy: Obj)
    requires SamplesOf(rec).Some? && SamplesOf(legacy).Some?
    ensures var a, b := SamplesOf(rec).value, SamplesOf(legacy).value;
      Get(MergeLegacy(rec, legacy), "Samples") == JInt(if a >= b then a else b)
  {
    var a, b := SamplesOf(rec).value, SamplesOf(legacy).value;
    var r1 := Put(rec, "Samples", JInt(if a >= b then a else b));
    var r2 := Put(r1, "Complete", JBool(Truthy(Get(r1, "Complete")) || Truthy(Get(legacy, "Complete"))));
    FillAllKeeps(r2, legacy, FillFields, "Samples");
  }

  /** The merged record is complete when either record was. */
  lemma MergeComplete(rec: Obj, legacy: Obj)
    ensures Get(MergeLegacy(rec, legacy), "Complete") == JBool(Truthy(Get(rec, "Complete")) || Truthy(Get(legacy, "Complete")))
  {
    var a, b := SamplesOf(rec), SamplesOf(legacy);
    var r1 := if a.Some? && b.Some? then Put(rec, "Samples", JInt(if a.value >= b.value then a.value else b.value)) else rec;
    assert Get(r1, "Complete") == Get(rec, "Complete");
    var r2 := Put(r1, "Complete", JBool(Truthy(Get(r1, "Complete")) || Truthy(Get(legacy, "Complete"))));
    FillAllKeeps(r2, legacy, FillFields, "Complete");
  }

  /** A field the record already holds a value for is never overwritten. */
  lemma MergeKeepsOwn(rec: Obj, legacy: Obj, fld: string)
    requires fld in FillFields && !Emptyish(Get(rec, fld))
    ensures Get(MergeLegacy(rec, legacy), fld) == Get(rec, fld)
  {
    var a, b := SamplesOf(rec), SamplesOf(legacy);
    var r1 := if a.Some? && b.Some? then Put(rec, "Samples", JInt(if a.value >= b.value then a.value else b.value)) else rec;
    var r2 := Put(r1, "Complete", JBool(Truthy(Get(r1, "Complete")) || Truthy(Get(legacy, "Complete"))));
    assert Get(r2, fld) == Get(rec, fld);
    FillAllKeeps(r2, legacy, FillFields, fld);
  }

  /** The record being migrated and the dict the loop pops from. */
  datatype Migration = Migration(rec: Obj, exo: Dict<string, Obj>)

  /** One visit of the migration loop: a legacy key's record is merged and the key popped. */
  function MigrateStep(m: Migration, k: string, prefix: string): Migration {
    if !StartsWith(k, prefix) then m
    else Migration(if k in m.exo.entries then MergeLegacy(m.rec, m.exo.entries[k]) else m.rec, Remove(m.exo, k))
  }

  /** The migration loop after visiting the first `n` snapshot keys. */
  function MigrateUpTo(m0: Migration, keys: seq<string>, n: nat, prefix: string): Migration
    requires n <= |keys|
  {
    if n == 0 then m0 else MigrateStep(MigrateUpTo(m0, keys, n - 1, prefix), keys[n - 1], prefix)
  }

  /** The dict part of the migration is the plain removal of the prefixed keys. */
  lemma {:induction false} MigrateDrops(m0: Migration, keys: seq<string>, n: nat, prefix: string)
    requires n <= |keys|
    ensures MigrateUpTo(m0, keys, n, prefix).exo == DropUpTo(m0.exo, keys, n, UnderPrefix(prefix))
  {
    if n > 0 {
      MigrateDrops(m0, keys, n - 1, prefix);
    }
  }

  /** Without legacy keys the record is not touched. */
  lemma {:induction false} MigrateNothing(m0: Migration, keys: seq<string>, n: nat, prefix: string)
    requires n <= |keys| && DictValid(m0.exo)
    requires forall k :: k in m0.exo.entries ==> !StartsWith(k, prefix)
    ensures MigrateUpTo(m0, keys, n, prefix) == m0
  {
    if n > 0 {
      MigrateNothing(m0, keys, n - 1, prefix);
      if StartsWith(keys[n - 1], prefix) {
        RemoveAbsent(m0.exo, keys[n - 1]);
      }
    }
  }

  lemma StepKeepsComplete(m: Migration, k: string, prefix: string)
    requires Truthy(Get(m.rec, "Complete"))
    ensures Truthy(Get(MigrateStep(m, k, prefix).rec, "Complete"))
  {
    if StartsWith(k, prefix) && k in m.exo.entries {
      MergeComplete(m.rec, m.exo.entries[k]);
    }
  }

  /** A record that is complete stays complete through the migration. */
  lemma {:induction false} MigrateKeepsComplete(m0: Migration, keys: seq<string>, n: nat, prefix: string)
    requires n <= |keys| && Truthy(Get(m0.rec, "Complete"))
    ensures Truthy(Get(MigrateUpTo(m0, keys, n, prefix).rec, "Complete"))
  {
    if n > 0 {
      MigrateKeepsComplete(m0, keys, n - 1, prefix);
      StepKeepsComplete(MigrateUpTo(m0, keys, n - 1, prefix), keys[n - 1], prefix);
    }
  }

  /** `for k in list(exo.keys()): if k.startswith(prefix): <merge>; exo.pop(k)` */
  method Migrate(m0: Migration, keys: seq<string>, prefix: string) returns (m: Migration)
    ensures m == MigrateUpTo(m0, keys, |keys|, prefix)
  {
    m := m0;
    var i := 0;
    while i < |keys|
      invariant i <= |keys|
      invariant m == MigrateUpTo(m0, keys, i, prefix)
    {
      m := MigrateStep(m, keys[i], prefix);
      i := i + 1;
    }
  }

  // ---------------------------------------------------------------------------
  // ScanOrganic

  /** What the ScanOrganic branch reads from the event. */
  datatype OrganicFacts = OrganicFacts(scanType: Json, genus: string, species: string, variant: string, body: Json)

  /** `text or default` */
  function OrText(text: string, default: string): string {
    if text != [] then text else default
  }

  function OrganicFactsOf(ev: Obj): OrganicFacts {
    OrganicFacts(
      Or(Get(ev, "ScanType"), JStr("")),
      OrText(NormStr(Or(Get(ev, "Genus_Localised"), Get(ev, "Genus"))), "Unknown Genus"),
      OrText(NormStr(Or(Get(ev, "Species_Localised"), Get(ev, "Species"))), "Unknown Species"),
      NormStr(Or(Or(Get(ev, "Variant_Localised"), Get(ev, "Variant")), JStr(""))),
      Get(ev, "Body"))
  }

  /** `(event.get("ScanType") or "").strip()` raises for a truthy non-string. */
  predicate ScanTypeRaises(f: OrganicFacts) {
    Truthy(f.scanType) && !f.scanType.JStr?
  }

  function ScanTypeText(f: OrganicFacts): string {
    if f.scanType.JStr? then Strip(f.scanType.s) else []
  }

  /** `f"{body_id}|{genus}|{species}"` */
  function OrganicKey(f: OrganicFacts): string {
    Show(f.body) + "|" + f.genus + "|" + f.species
  }

  /** `get_value(variant) or get_value(species)` when there is a value table. */
  function OrganicValue(t: Option<ExoValues.Table>, f: OrganicFacts): (r: Option<int>)
    ensures t.None? ==> r.None?
  {
    if t.None? then None
    else
      var v := ExoValues.GetValue(t.value, f.variant);
      if v.Some? && v.value != 0 then v else ExoValues.GetValue(t.value, f.species)
  }

  /** The five members the branch writes; the variant falls back to the stored one. */
  function OrganicMembers(rec: Obj, f: OrganicFacts, st: string): Obj {
    [Member("BodyID", f.body), Member("Genus", JStr(f.genus)), Member("Species", JStr(f.species)),
     Member("Variant", if f.variant != [] then JStr(f.variant) else Or(Get(rec, "Variant"), JStr(""))),
     Member("LastScanType", JStr(st))]
  }

  /** The record after `rec.update(...)` and the base value. */
  function Tagged(rec: Obj, f: OrganicFacts, st: string, t: Option<ExoValues.Table>): Obj {
    var r1 := Update(rec, OrganicMembers(rec, f, st));
    var val := OrganicValue(t, f);
    if val.Some? then Put(r1, "BaseValue", JInt(val.value)) else r1
  }

  /** The sampling progress after a scan of kind `low` (lower-cased): a log
      is at least 1 of 3, each sample advances one step up to 3, an
      analysis confirms 3; any other kind keeps the count. */
  function Progress(p: int, low: string): (r: int)
    ensures low == "log" ==> r >= 1 && r >= p
    ensures low == "sample" ==> 1 <= r <= 3 && (0 <= p < 3 ==> r == p + 1)
    ensures low == "analyse" ==> r >= 3 && r >= p
    ensures low != "log" && low != "sample" && low != "analyse" ==> r == p
    ensures 0 <= p <= 3 ==> p <= r <= 3
  {
    if low == "log" then (if p >= 1 then p else 1)
    else if low == "sample" then (if p >= 0 then (if p + 1 <= 3 then p + 1 else 3) else 1)
    else if low == "analyse" then (if p >= 3 then p else 3)
    else p
  }

  /** `rec["Samples"] = progress; rec["Complete"] = progress >= 3 or st == "analyse"` */
  function Progressed(rec: Obj, p: int, low: string): Obj {
    var n := Progress(p, low);
    Put(Put(rec, "Samples", JInt(n)), "Complete", JBool(n >= 3 || low == "analyse"))
  }

  /** The record a scan stores, `None` when the sample count does not convert. */
  function Organic(rec: Obj, f: OrganicFacts, st: string, t: Option<ExoValues.Table>): Option<Obj> {
    var r := Tagged(rec, f, st, t);
    var p := SamplesOf(r);
    if p.None? then None else Some(Progressed(r, p.value, Lower(st)))
  }

  /** Tagging leaves the sample count alone. */
  lemma TaggedSamples(rec: Obj, f: OrganicFacts, st: string, t: Option<ExoValues.Table>)
    ensures SamplesOf(Tagged(rec, f, st, t)) == SamplesOf(rec)
  {
    var ms := OrganicMembers(rec, f, st);
    assert !Has(ms, "Samples") by {
      forall i | 0 <= i < |ms| ensures ms[i].key != "Samples" {
      }
    }
    var r1 := Update(rec, ms);
    assert Get(r1, "Samples") == Get(rec, "Samples") && (Has(r1, "Samples") <==> Has(rec, "Samples"));
  }

  /** Tagging names the organism and the scan. */
  lemma TaggedNames(rec: Obj, f: OrganicFacts, st: string, t: Option<ExoValues.Table>)
    ensures var r := Tagged(rec, f, st, t);
      Get(r, "BodyID") == f.body && Get(r, "Genus") == JStr(f.genus) && Get(r, "Species") == JStr(f.species)
      && Get(r, "LastScanType") == JStr(st)
  {
    var ms := OrganicMembers(rec, f, st);
    GetAt(ms, 0);
    GetAt(ms, 1);
    GetAt(ms, 2);
    GetAt(ms, 4);
  }

  /** The progressed record holds the new count and the completion flag. */
  lemma ProgressedFields(rec: Obj, p: int, low: string, k: string)
    requires k != "Samples" && k != "Complete"
    ensures var r := Progressed(rec, p, low); var n := Progress(p, low);
      SamplesOf(r) == Some(n) && Get(r, "Complete") == JBool(n >= 3 || low == "analyse")
      && Get(r, k) == Get(rec, k)
  {
  }

  /** The stored record names the organism and the scan, counts the samples
      by `Progress`, and is complete exactly when three are reached or the
      scan was an analysis; it converts again on the next scan. */
  lemma OrganicRecord(rec: Obj, f: OrganicFacts, st: string, t: Option<ExoValues.Table>)
    ensures Organic(rec, f, st, t).Some? <==> SamplesOf(rec).Some?
    ensures SamplesOf(rec).Some? ==>
      var r := Organic(rec, f, st, t).value; var n := Progress(SamplesOf(rec).value, Lower(st));
      SamplesOf(r) == Some(n)
      && Get(r, "Complete") == JBool(n >= 3 || Lower(st) == "analyse")
      && Get(r, "BodyID") == f.body && Get(r, "Genus") == JStr(f.genus) && Get(r, "Species") == JStr(f.species)
      && Get(r, "LastScanType") == JStr(st)
  {
    TaggedSamples(rec, f, st, t);
    TaggedNames(rec, f, st, t);
    var r := Tagged(rec, f, st, t);
    if SamplesOf(rec).Some? {
      var p := SamplesOf(rec).value;
      ProgressedFields(r, p, Lower(st), "BodyID");
      ProgressedFields(r, p, Lower(st), "Genus");
      ProgressedFields(r, p, Lower(st), "Species");
      ProgressedFields(r, p, Lower(st), "LastScanType");
    }
  }

  /** How a scan ends once the record is migrated: a sample count that does
      not convert raises with the tags already written into a stored record
      (the branch updates that dict in place); otherwise the record is stored. */
  function OrganicStore(exo1: Dict<string, Obj>, exo2: Dict<string, Obj>, key: string, rec: Obj,
                        f: OrganicFacts, st: string, t: Option<ExoValues.Table>): ExoStep {
    var r := Tagged(rec, f, st, t);
    var p := SamplesOf(r);
    if p.None? then ExoStep(if key in exo1.entries then Assign(exo2, key, r) else exo2, Raised)
    else ExoStep(Assign(exo2, key, Progressed(r, p.value, Lower(st))), Continue)
  }

  /** The ScanOrganic branch on the exobiology records. */
  function ScanOrganicSpec(exo: Dict<string, Obj>, t: Option<ExoValues.Table>, f: OrganicFacts): ExoStep {
    if ScanTypeRaises(f) then ExoStep(exo, Raised)
    else if !IsInt(f.body) then ExoStep(exo, Return)
    else
      var exo1 := DropUpTo(exo, exo.order, |exo.order|, CodexOf(Show(f.body), f.genus));
      var key := OrganicKey(f);
      var m := MigrateUpTo(Migration(Lookup(exo1, key, []), exo1), exo1.order, |exo1.order|, key + "|");
      OrganicStore(exo1, m.exo, key, m.rec, f, ScanTypeText(f), t)
  }

  /** The dicts the branch passes through before storing, named for the lemmas. */
  function Cleaned(exo: Dict<string, Obj>, f: OrganicFacts): Dict<string, Obj> {
    DropUpTo(exo, exo.order, |exo.order|, CodexOf(Show(f.body), f.genus))
  }

  function Migrated(exo: Dict<string, Obj>, f: OrganicFacts): Migration {
    var exo1 := Cleaned(exo, f);
    MigrateUpTo(Migration(Lookup(exo1, OrganicKey(f), []), exo1), exo1.order, |exo1.order|, OrganicKey(f) + "|")
  }

  /** Every other key is dropped exactly when it is a codex placeholder of
      the same body and genus or a legacy per-variant key of this species,
      and the records that stay are untouched. */
  lemma ScanOrganicOthers(exo: Dict<string, Obj>, t: Option<ExoValues.Table>, f: OrganicFacts, k: string)
    requires DictValid(exo) && !ScanTypeRaises(f) && IsInt(f.body) && k != OrganicKey(f)
    ensures var r := ScanOrganicSpec(exo, t, f).exo;
      (k in r.entries <==> (k in exo.entries && !CodexPlaceholder(k, Show(f.body), f.genus)
        && !StartsWith(k, OrganicKey(f) + "|")))
      && (k in r.entries ==> r.entries[k] == exo.entries[k])
  {
    var exo1 := Cleaned(exo, f);
    DropAllEntries(exo, CodexOf(Show(f.body), f.genus), k);
    DropUpToValid(exo, exo.order, |exo.order|, CodexOf(Show(f.body), f.genus));
    var key := OrganicKey(f);
    MigrateDrops(Migration(Lookup(exo1, key, []), exo1), exo1.order, |exo1.order|, key + "|");
    DropAllEntries(exo1, UnderPrefix(key + "|"), k);
  }

  /** The records stay a well-formed dict. */
  lemma ScanOrganicValid(exo: Dict<string, Obj>, t: Option<ExoValues.Table>, f: OrganicFacts)
    requires DictValid(exo)
    ensures DictValid(ScanOrganicSpec(exo, t, f).exo)
  {
    if !ScanTypeRaises(f) && IsInt(f.body) {
      var exo1 := Cleaned(exo, f);
      var key := OrganicKey(f);
      DropUpToValid(exo, exo.order, |exo.order|, CodexOf(Show(f.body), f.genus));
      var m := Migrated(exo, f);
      MigrateDrops(Migration(Lookup(exo1, key, []), exo1), exo1.order, |exo1.order|, key + "|");
      DropUpToValid(exo1, exo1.order, |exo1.order|, UnderPrefix(key + "|"));
      AssignValid(m.exo, key, Tagged(m.rec, f, ScanTypeText(f), t));
      var r := Tagged(m.rec, f, ScanTypeText(f), t);
      if SamplesOf(r).Some? {
        AssignValid(m.exo, key, Progressed(r, SamplesOf(r).value, Lower(ScanTypeText(f))));
      }
    }
  }

  /** `state.exo`: the ScanOrganic branch. */
  method ScanOrganic(e: EventEngine, ev: Obj) returns (flow: Flow)
    modifies e.state`sys
    ensures var step := ScanOrganicSpec(old(e.state.sys.exo), e.exoValues, OrganicFactsOf(ev));
      e.state.sys == old(e.state.sys).(exo := step.exo) && flow == step.flow
  {
    var f := OrganicFactsOf(ev);
    if ScanTypeRaises(f) {
      return Raised;
    }
    if !IsInt(f.body) {
      return Return;
    }
    var st := ScanTypeText(f);
    var exo0 := e.state.sys.exo;
    var exo := DropKeys(exo0, exo0.order, CodexOf(Show(f.body), f.genus));
    var key := OrganicKey(f);
    var m := Migrate(Migration(Lookup(exo, key, []), exo), exo.order, key + "|");
    var r := Tagged(m.rec, f, st, e.exoValues);
    var p := SamplesOf(r);
    if p.None? {
      e.state.sys := e.state.sys.(exo := if key in exo.entries then Assign(m.exo, key, r) else m.exo);
      return Raised;
    }
    e.state.sys := e.state.sys.(exo := Assign(m.exo, key, Progressed(r, p.value, Lower(st))));
    flow := Continue;
  }

  /** The sample count of the stored record; a missing record counts 0. */
  function StoredSamples(exo: Dict<string, Obj>, key: string): Option<int> {
    SamplesOf(Lookup(exo, key, []))
  }

  /** No legacy per-variant key of this species is left. */
  ghost predicate NoLegacy(exo: Dict<string, Obj>, key: string) {
    forall k :: k in exo.entries ==> !StartsWith(k, key + "|")
  }

  /** A species key whose parts have no `|` is not a codex placeholder. */
  lemma OrganicKeyNotPlaceholder(f: OrganicFacts)
    requires '|' !in Show(f.body) && '|' !in f.genus && '|' !in f.species && f.species != "CODEX"
    ensures !CodexPlaceholder(OrganicKey(f), Show(f.body), f.genus)
  {
    KeyParts(Show(f.body), f.genus, f.species);
  }

  /** A scan of a species whose record converts advances its count by
      `Progress`, stores the completion flag, and leaves one record and no
      legacy keys for the species. */
  lemma ScanOrganicAdvances(exo: Dict<string, Obj>, t: Option<ExoValues.Table>, f: OrganicFacts)
    requires DictValid(exo) && !ScanTypeRaises(f) && IsInt(f.body)
    requires '|' !in Show(f.body) && '|' !in f.genus && '|' !in f.species && f.species != "CODEX"
    requires NoLegacy(exo, OrganicKey(f)) && StoredSamples(exo, OrganicKey(f)).Some?
    ensures var step := ScanOrganicSpec(exo, t, f); var key := OrganicKey(f); var low := Lower(ScanTypeText(f));
      var n := Progress(StoredSamples(exo, key).value, low);
      step.flow == Continue && key in step.exo.entries && StoredSamples(step.exo, key) == Some(n)
      && Get(step.exo.entries[key], "Complete") == JBool(n >= 3 || low == "analyse")
      && NoLegacy(step.exo, key) && DictValid(step.exo)
  {
    var key := OrganicKey(f);
    var rule := CodexOf(Show(f.body), f.genus);
    var exo1 := Cleaned(exo, f);
    OrganicKeyNotPlaceholder(f);
    DropAllEntries(exo, rule, key);
    DropUpToValid(exo, exo.order, |exo.order|, rule);
    forall k | k in exo1.entries ensures !StartsWith(k, key + "|") {
      DropAllEntries(exo, rule, k);
    }
    var m0 := Migration(Lookup(exo1, key, []), exo1);
    MigrateNothing(m0, exo1.order, |exo1.order|, key + "|");
    var st := ScanTypeText(f);
    OrganicRecord(m0.rec, f, st, t);
    TaggedSamples(m0.rec, f, st, t);
    ScanOrganicValid(exo, t, f);
  }

  /** `"Log"`, `"Sample"` and `"Sample"` are the scan kinds `log` and `sample`. */
  lemma ScanKinds()
    ensures Lower(Strip("Log")) == "log" && Lower(Strip("Sample")) == "sample"
  {
    StripNoEdges("Log");
    StripNoEdges("Sample");
  }

  /** A log and two samples of the same species complete it, three of three,
      whatever count its record started from. */
  lemma LogSampleSampleCompletes(exo: Dict<string, Obj>, t: Option<ExoValues.Table>, f: OrganicFacts)
    requires DictValid(exo) && IsInt(f.body)
    requires '|' !in Show(f.body) && '|' !in f.genus && '|' !in f.species && f.species != "CODEX"
    requires NoLegacy(exo, OrganicKey(f)) && StoredSamples(exo, OrganicKey(f)).Some?
    ensures var e1 := ScanOrganicSpec(exo, t, f.(scanType := JStr("Log"))).exo;
      var e2 := ScanOrganicSpec(e1, t, f.(scanType := JStr("Sample"))).exo;
      var e3 := ScanOrganicSpec(e2, t, f.(scanType := JStr("Sample"))).exo;
      OrganicKey(f) in e3.entries && StoredSamples(e3, OrganicKey(f)) == Some(3)
      && Get(e3.entries[OrganicKey(f)], "Complete") == JBool(true)
  {
    ScanKinds();
    var fl, fs := f.(scanType := JStr("Log")), f.(scanType := JStr("Sample"));
    assert OrganicKey(fl) == OrganicKey(f) && OrganicKey(fs) == OrganicKey(f);
    ScanOrganicAdvances(exo, t, fl);
    var e1 := ScanOrganicSpec(exo, t, fl).exo;
    ScanOrganicAdvances(e1, t, fs);
    var e2 := ScanOrganicSpec(e1, t, fs).exo;
    ScanOrganicAdvances(e2, t, fs);
  }

  /** The genus a ScanOrganic event gives has no whitespace at its ends. */
  lemma OrganicGenusTrimmed(ev: Obj)
    ensures Strip(OrganicFactsOf(ev).genus) == OrganicFactsOf(ev).genus
  {
    var g := NormStr(Or(Get(ev, "Genus_Localised"), Get(ev, "Genus")));
    if g != [] {
      CollapseTrimmed(Or(Get(ev, "Genus_Localised"), Get(ev, "Genus")).s);
      StripNoEdges(g);
    } else {
      StripNoEdges("Unknown Genus");
    }
  }

  // ---------------------------------------------------------------------------
  // CodexEntry

  /** What the CodexEntry branch reads from the event. */
  datatype CodexFacts = CodexFacts(body: Json, nameLoc: Json, entryId: Json, voucher: Json)

  function CodexFactsOf(ev: Obj): CodexFacts {
    CodexFacts(Get(ev, "BodyID"), Or(Get(ev, "Name_Localised"), JStr("")), Get(ev, "EntryID"), Get(ev, "VoucherAmount"))
  }

  /** `session_codex_collected += v` for a positive `int` voucher, before anything else. */
  function Voucher(l: Ledger, v: Json): (r: Ledger)
    ensures r == l.(sessionCodexCollected := r.sessionCodexCollected)
    ensures r.sessionCodexCollected > l.sessionCodexCollected <==> IsInt(v) && IntOf(v) > 0
    ensures r.sessionCodexCollected >= l.sessionCodexCollected
  {
    if IsInt(v) && IntOf(v) > 0 then l.(sessionCodexCollected := l.sessionCodexCollected + IntOf(v)) else l
  }

  /** `name_loc.strip()`, empty for a non-string. */
  function CodexText(f: CodexFacts): string {
    if f.nameLoc.JStr? then Strip(f.nameLoc.s) else []
  }

  /** `_norm_text(nm.split(" ", 1)[0].strip())`: the genus is the first word. */
  function CodexGenus(nm: string): string {
    var w := if ' ' in nm then nm[..FirstIndex(nm, ' ')] else nm;
    NormStr(JStr(Strip(w)))
  }

  /** A record that is a real scan (not a placeholder) of the genus on the body. */
  predicate Blocks(r: Obj, body: Json, genus: string) {
    PyEq(Get(r, "BodyID"), body)
    && Upper(Strip(Show(Or(GetOr(r, "LastScanType", JStr("")), JStr(""))))) != "CODEX"
    && Strip(Show(Or(GetOr(r, "Genus", JStr("")), JStr("")))) == genus
  }

  predicate AlreadyScanned(exo: Dict<string, Obj>, body: Json, genus: string) {
    exists i | 0 <= i < |exo.order| :: exo.order[i] in exo.entries && Blocks(exo.entries[exo.order[i]], body, genus)
  }

  /** The loop over `exo.items()` that returns at the first real scan. */
  method FindScanned(exo: Dict<string, Obj>, body: Json, genus: string) returns (found: bool)
    ensures found == AlreadyScanned(exo, body, genus)
  {
    var i := 0;
    while i < |exo.order|
      invariant i <= |exo.order|
      invariant forall j :: 0 <= j < i ==> !(exo.order[j] in exo.entries && Blocks(exo.entries[exo.order[j]], body, genus))
    {
      var k := exo.order[i];
      if k in exo.entries && Blocks(exo.entries[k], body, genus) {
        return true;
      }
      i := i + 1;
    }
    found := false;
  }

  /** What a placeholder shows: the genus, species, variant and potential value. */
  datatype CodexNaming = CodexNaming(genus: Json, species: string, variant: string, pot: Json)

  function IntOrNull(v: Option<int>): Json {
    if v.Some? then JInt(v.value) else JNull
  }

  /** The names from `"<Species> - <Variant>"`, preferring the value table's
      record for the whole name, else for the species part. */
  function CodexNames(t: Option<ExoValues.Table>, nm: string, genus: string): CodexNaming {
    var hasSep := Contains(nm, " - ");
    var parts := if hasSep then SplitOnce(nm, " - ") else (nm, []);
    var left := Strip(parts.0);
    var found := if t.None? then None else if nm in t.value then Some(t.value[nm])
      else if hasSep && left in t.value then Some(t.value[left]) else None;
    var g := if found.Some? && Truthy(found.value.genus) then found.value.genus else JStr(genus);
    var fallback := if t.None? then JNull else
      var v := ExoValues.GetValue(t.value, nm);
      if v.Some? && v.value != 0 then JInt(v.value) else if hasSep then IntOrNull(ExoValues.GetValue(t.value, left)) else JNull;
    var pot := if found.Some? then JInt(found.value.baseValue) else fallback;
    var species := if t.Some? && nm in t.value && t.value[nm].species != [] then t.value[nm].species
      else if hasSep then left else nm;
    CodexNaming(g, species, if hasSep then Strip(parts.1) else [], pot)
  }

  /** `f"{body_id}|{genus}|CODEX"` */
  function CodexKey(body: Json, genus: Json): string {
    Show(body) + "|" + Show(genus) + "|CODEX"
  }

  /** The eleven members of a placeholder. */
  function CodexMembers(f: CodexFacts, nm: string, c: CodexNaming): Obj {
    [Member("BodyID", f.body), Member("Genus", c.genus), Member("Species", JStr(c.species)),
     Member("Variant", JStr(c.variant)), Member("Samples", JInt(0)), Member("Complete", JBool(false)),
     Member("LastScanType", JStr("CODEX")), Member("CodexEntryID", f.entryId), Member("CodexName", JStr(nm)),
     Member("BaseValue", c.pot), Member("PotentialValue", c.pot)]
  }

  /** Legacy placeholders under the key are popped, then the one placeholder is updated. */
  function PlaceCodex(exo: Dict<string, Obj>, key: string, ms: Obj): Dict<string, Obj> {
    var exo1 := DropUpTo(exo, exo.order, |exo.order|, UnderPrefix(key + "|"));
    Assign(exo1, key, Update(Lookup(exo1, key, []), ms))
  }

  /** The key and members a codex entry would write. */
  function CodexNamingOf(t: Option<ExoValues.Table>, f: CodexFacts): CodexNaming {
    CodexNames(t, CodexText(f), CodexGenus(CodexText(f)))
  }

  function CodexKeyOf(t: Option<ExoValues.Table>, f: CodexFacts): string {
    CodexKey(f.body, CodexNamingOf(t, f).genus)
  }

  /** The CodexEntry branch on the exobiology records. */
  function CodexEntrySpec(exo: Dict<string, Obj>, t: Option<ExoValues.Table>, f: CodexFacts): ExoStep {
    var nm := CodexText(f);
    if !IsInt(f.body) || nm == [] then ExoStep(exo, Return)
    else
      var g0 := CodexGenus(nm);
      if g0 == [] || AlreadyScanned(exo, f.body, g0) then ExoStep(exo, Return)
      else ExoStep(PlaceCodex(exo, CodexKeyOf(t, f), CodexMembers(f, nm, CodexNamingOf(t, f))), Continue)
  }

  /** Every other key stays unless it is a legacy key under the placeholder's. */
  lemma CodexOthers(exo: Dict<string, Obj>, t: Option<ExoValues.Table>, f: CodexFacts, k: string)
    requires DictValid(exo) && CodexEntrySpec(exo, t, f).flow == Continue && k != CodexKeyOf(t, f)
    ensures var r := CodexEntrySpec(exo, t, f).exo;
      (k in r.entries <==> (k in exo.entries && !StartsWith(k, CodexKeyOf(t, f) + "|")))
      && (k in r.entries ==> r.entries[k] == exo.entries[k])
  {
    DropAllEntries(exo, UnderPrefix(CodexKeyOf(t, f) + "|"), k);
  }

  /** The placeholder records the codex entry with no samples and not complete. */
  lemma PlaceholderFields(prev: Obj, f: CodexFacts, nm: string, c: CodexNaming)
    ensures var r := Update(prev, CodexMembers(f, nm, c));
      Get(r, "BodyID") == f.body && Get(r, "Samples") == JInt(0) && Get(r, "Complete") == JBool(false)
      && Get(r, "LastScanType") == JStr("CODEX") && Get(r, "CodexName") == JStr(nm)
      && Get(r, "BaseValue") == c.pot && Get(r, "PotentialValue") == c.pot
  {
    var ms := CodexMembers(f, nm, c);
    GetAt(ms, 0);
    GetAt(ms, 4);
    GetAt(ms, 5);
    GetAt(ms, 6);
    GetAt(ms, 8);
    GetAt(ms, 9);
    GetAt(ms, 10);
  }

  /** A placeholder is left for the body and genus, with no legacy keys under it. */
  lemma CodexPlaces(exo: Dict<string, Obj>, t: Option<ExoValues.Table>, f: CodexFacts)
    requires DictValid(exo) && CodexEntrySpec(exo, t, f).flow == Continue
    ensures var r := CodexEntrySpec(exo, t, f).exo; var key := CodexKeyOf(t, f);
      key in r.entries && DictValid(r)
      && Get(r.entries[key], "LastScanType") == JStr("CODEX") && Get(r.entries[key], "Samples") == JInt(0)
      && Get(r.entries[key], "Complete") == JBool(false) && Get(r.entries[key], "BodyID") == f.body
      && NoLegacy(r, key)
  {
    var key := CodexKeyOf(t, f);
    var rule := UnderPrefix(key + "|");
    var exo1 := DropUpTo(exo, exo.order, |exo.order|, rule);
    DropUpToValid(exo, exo.order, |exo.order|, rule);
    PlaceholderFields(Lookup(exo1, key, []), f, CodexText(f), CodexNamingOf(t, f));
    AssignValid(exo1, key, Update(Lookup(exo1, key, []), CodexMembers(f, CodexText(f), CodexNamingOf(t, f))));
    forall k | k in exo1.entries ensures !StartsWith(k, key + "|") {
      DropAllEntries(exo, rule, k);
    }
  }

  /** A placeholder holds every member it was written with. */
  lemma PlaceholderHolds(prev: Obj, f: CodexFacts, nm: string, c: CodexNaming)
    ensures var ms := CodexMembers(f, nm, c); var r := Update(prev, ms);
      forall i :: 0 <= i < |ms| ==> Has(r, ms[i].key) && Get(r, ms[i].key) == ms[i].val
  {
    CodexKeysDistinct(f, nm, c);
    GetDistinct(CodexMembers(f, nm, c));
  }

  /** The eleven placeholder keys are pairwise different. */
  lemma CodexKeysDistinct(f: CodexFacts, nm: string, c: CodexNaming)
    ensures var ms := CodexMembers(f, nm, c);
      forall i, j :: 0 <= i < j < |ms| ==> ms[i].key != ms[j].key
  {
  }

  /** A placeholder is not a real scan, so it never blocks another codex entry. */
  lemma PlaceholderDoesNotBlock(r: Obj, body: Json, genus: string)
    requires Get(r, "LastScanType") == JStr("CODEX")
    ensures !Blocks(r, body, genus)
  {
    if Has(r, "LastScanType") {
      assert GetOr(r, "LastScanType", JStr("")) == JStr("CODEX");
    }
    assert Strip("CODEX") == "CODEX";
    assert Upper("CODEX") == "CODEX";
  }

  /** After a placed codex entry, no record blocks the same entry. */
  lemma CodexStillOpen(exo: Dict<string, Obj>, t: Option<ExoValues.Table>, f: CodexFacts)
    requires DictValid(exo) && CodexEntrySpec(exo, t, f).flow == Continue
    ensures !AlreadyScanned(CodexEntrySpec(exo, t, f).exo, f.body, CodexGenus(CodexText(f)))
  {
    var r := CodexEntrySpec(exo, t, f).exo;
    var key := CodexKeyOf(t, f);
    var g0 := CodexGenus(CodexText(f));
    CodexPlaces(exo, t, f);
    forall i | 0 <= i < |r.order| && r.order[i] in r.entries
      ensures !Blocks(r.entries[r.order[i]], f.body, g0)
    {
      var k := r.order[i];
      if k == key {
        PlaceholderDoesNotBlock(r.entries[k], f.body, g0);
      } else {
        CodexOthers(exo, t, f, k);
        assert k in exo.order;
        var j :| 0 <= j < |exo.order| && exo.order[j] == k;
        assert !(exo.order[j] in exo.entries && Blocks(exo.entries[exo.order[j]], f.body, g0));
      }
    }
  }

  /** Placing a placeholder that is already in place changes nothing. */
  lemma PlaceCodexSettled(r: Dict<string, Obj>, key: string, ms: Obj)
    requires DictValid(r) && key in r.entries && NoLegacy(r, key)
    requires forall i :: 0 <= i < |ms| ==> Has(r.entries[key], ms[i].key) && Get(r.entries[key], ms[i].key) == ms[i].val
    ensures PlaceCodex(r, key, ms) == r
  {
    DropNothing(r, r.order, |r.order|, UnderPrefix(key + "|"));
    UpdateSettled(r.entries[key], ms);
    assert r.entries[key := r.entries[key]] == r.entries;
  }

  /** Re-applying the same codex entry leaves the records as the first one did. */
  lemma CodexEntryIdempotent(exo: Dict<string, Obj>, t: Option<ExoValues.Table>, f: CodexFacts)
    requires DictValid(exo)
    ensures var step := CodexEntrySpec(exo, t, f);
      CodexEntrySpec(step.exo, t, f) == step
  {
    var step := CodexEntrySpec(exo, t, f);
    if step.flow == Continue {
      var key := CodexKeyOf(t, f);
      var ms := CodexMembers(f, CodexText(f), CodexNamingOf(t, f));
      CodexPlaces(exo, t, f);
      CodexStillOpen(exo, t, f);
      var exo1 := DropUpTo(exo, exo.order, |exo.order|, UnderPrefix(key + "|"));
      PlaceholderHolds(Lookup(exo1, key, []), f, CodexText(f), CodexNamingOf(t, f));
      PlaceCodexSettled(step.exo, key, ms);
    }
  }

  /** A completed scan stores the record `Organic` makes from the migrated one. */
  lemma ScanStoresOrganic(exo: Dict<string, Obj>, t: Option<ExoValues.Table>, f: OrganicFacts)
    requires DictValid(exo) && ScanOrganicSpec(exo, t, f).flow == Continue
    ensures var r := ScanOrganicSpec(exo, t, f).exo; var key := OrganicKey(f);
      key in r.entries && key in r.order
      && Organic(Migrated(exo, f).rec, f, ScanTypeText(f), t) == Some(r.entries[key])
  {
    var m := Migrated(exo, f);
    TaggedSamples(m.rec, f, ScanTypeText(f), t);
    ScanOrganicValid(exo, t, f);
  }

  /** A scanned record blocks a placeholder for its own body and genus. */
  lemma ScannedRecordBlocks(rec: Obj, f: OrganicFacts, st: string, t: Option<ExoValues.Table>)
    requires Organic(rec, f, st, t).Some? && IsInt(f.body)
    requires Strip(f.genus) == f.genus && Strip(st) == st && Upper(st) != "CODEX"
    ensures Blocks(Organic(rec, f, st, t).value, f.body, f.genus)
  {
    OrganicRecord(rec, f, st, t);
    var r := Organic(rec, f, st, t).value;
    assert GetOr(r, "LastScanType", JStr("")) == JStr(st);
    assert Or(JStr(st), JStr("")) == JStr(st);
    assert GetOr(r, "Genus", JStr("")) == JStr(f.genus);
    assert Or(JStr(f.genus), JStr("")) == JStr(f.genus);
    assert PyEq(Get(r, "BodyID"), f.body);
  }

  /** A codex entry for a genus already sampled on the body leaves no
      placeholder: after a ScanOrganic of the genus, a codex entry whose
      name starts with it changes nothing. */
  lemma ScanBlocksCodex(exo: Dict<string, Obj>, t: Option<ExoValues.Table>, ev: Obj, fc: CodexFacts)
    requires DictValid(exo) && ScanOrganicSpec(exo, t, OrganicFactsOf(ev)).flow == Continue
    requires fc.body == OrganicFactsOf(ev).body && CodexGenus(CodexText(fc)) == OrganicFactsOf(ev).genus
    requires Upper(ScanTypeText(OrganicFactsOf(ev))) != "CODEX"
    ensures var e1 := ScanOrganicSpec(exo, t, OrganicFactsOf(ev)).exo;
      CodexEntrySpec(e1, t, fc) == ExoStep(e1, Return)
  {
    var f := OrganicFactsOf(ev);
    var e1 := ScanOrganicSpec(exo, t, f).exo;
    var key := OrganicKey(f);
    var st := ScanTypeText(f);
    ScanStoresOrganic(exo, t, f);
    OrganicGenusTrimmed(ev);
    StripIdempotent(f.scanType.s);
    ScannedRecordBlocks(Migrated(exo, f).rec, f, st, t);
    var i :| 0 <= i < |e1.order| && e1.order[i] == key;
    assert e1.order[i] in e1.entries && Blocks(e1.entries[e1.order[i]], fc.body, f.genus);
  }

  /** The placeholder key of a body and a normalised genus without `|`. */
  lemma PlaceholderKey(bk: string, g: string)
    requires '|' !in bk && '|' !in g && NormStr(JStr(g)) == g
    ensures CodexPlaceholder(bk + "|" + g + "|CODEX", bk, g)
  {
    var k := bk + "|" + g + "|CODEX";
    var head := bk + "|" + g;
    assert "|CODEX" == "|" + "CODEX";
    assert head + ("|" + "CODEX") == head + "|" + "CODEX";
    assert k == bk + "|" + g + "|" + "CODEX";
    KeyParts(bk, g, "CODEX");
    var parts := SplitChar(k, '|');
    assert parts[0] == bk && parts[1] == g && parts[2] == "CODEX";
    assert k[..|bk + "|"|] == bk + "|";
  }

  /** A placeholder key differs from every species key but "CODEX". */
  lemma PlaceholderNotSpecies(bk: string, g: string, sp: string)
    requires sp != "CODEX"
    ensures bk + "|" + g + "|CODEX" != bk + "|" + g + "|" + sp
  {
    var n := |bk| + |g| + 2;
    assert (bk + "|" + g + "|CODEX")[n..] == "CODEX";
    assert (bk + "|" + g + "|" + sp)[n..] == sp;
  }

  /** A ScanOrganic of a genus removes the placeholder a codex entry left
      for it on the body. */
  lemma ScanClearsPlaceholder(exo: Dict<string, Obj>, t: Option<ExoValues.Table>, f: OrganicFacts)
    requires DictValid(exo) && !ScanTypeRaises(f) && IsInt(f.body)
    requires '|' !in Show(f.body) && '|' !in f.genus && NormStr(JStr(f.genus)) == f.genus && f.species != "CODEX"
    ensures CodexKey(f.body, JStr(f.genus)) !in ScanOrganicSpec(exo, t, f).exo.entries
  {
    PlaceholderKey(Show(f.body), f.genus);
    PlaceholderNotSpecies(Show(f.body), f.genus, f.species);
    ScanOrganicOthers(exo, t, f, CodexKey(f.body, JStr(f.genus)));
  }

  /** `state.exo` and the codex tally: the CodexEntry branch. */
  method CodexEntry(e: EventEngine, ev: Obj) returns (flow: Flow)
    modifies e.state`sys, e.state`ledger
    ensures e.state.ledger == Voucher(old(e.state.ledger), CodexFactsOf(ev).voucher)
    ensures var step := CodexEntrySpec(old(e.state.sys.exo), e.exoValues, CodexFactsOf(ev));
      e.state.sys == old(e.state.sys).(exo := step.exo) && flow == step.flow
  {
    var f := CodexFactsOf(ev);
    e.state.ledger := Voucher(e.state.ledger, f.voucher);
    var nm := CodexText(f);
    if !IsInt(f.body) || nm == [] {
      return Return;
    }
    var g0 := CodexGenus(nm);
    if g0 == [] {
      return Return;
    }
    var scanned := FindScanned(e.state.sys.exo, f.body, g0);
    if scanned {
      return Return;
    }
    var c := CodexNames(e.exoValues, nm, g0);
    var key := CodexKey(f.body, c.genus);
    var exo := DropKeys(e.state.sys.exo, e.state.sys.exo.order, UnderPrefix(key + "|"));
    var rec := Update(Lookup(exo, key, []), CodexMembers(f, nm, c));
    e.state.sys := e.state.sys.(exo := Assign(exo, key, rec));
    flow := Continue;
  }

  // ---------------------------------------------------------------------------
  // SellOrganicData

  /** `Value` plus `Bonus` of one sold item, each counted when it is an `int`. */
  function Earned(item: Obj): int {
    var v := GetOr(item, "Value", JInt(0));
    var b := GetOr(item, "Bonus", JInt(0));
    (if IsInt(v) then IntOf(v) else 0) + (if IsInt(b) then IntOf(b) else 0)
  }

  /** The total of the first `n` items; `None` once an item is not a dict. */
  function SaleUpTo(items: seq<Json>, n: nat): Option<int>
    requires n <= |items|
  {
    if n == 0 then Some(0)
    else
      var t := SaleUpTo(items, n - 1);
      if t.None? || !items[n - 1].JObj? then None else Some(t.value + Earned(items[n - 1].members))
  }

  function Combine(x: Option<int>, y: Option<int>): Option<int> {
    if x.Some? && y.Some? then Some(x.value + y.value) else None
  }

  lemma {:induction false} SaleUpToPrefix(items: seq<Json>, n: nat, m: nat)
    requires n <= m <= |items|
    ensures SaleUpTo(items, n) == SaleUpTo(items[..m], n)
  {
    if n > 0 {
      SaleUpToPrefix(items, n - 1, m);
    }
  }

  lemma {:induction false} SaleSplitUpTo(a: seq<Json>, b: seq<Json>, n: nat)
    requires n <= |b|
    ensures SaleUpTo(a + b, |a| + n) == Combine(SaleUpTo(a, |a|), SaleUpTo(b, n))
  {
    if n == 0 {
      SaleUpToPrefix(a + b, |a|, |a|);
      assert (a + b)[..|a|] == a;
    } else {
      SaleSplitUpTo(a, b, n - 1);
      var ab, x := a + b, b[n - 1];
      assert ab[|a| + n - 1] == x;
      var before, rest := SaleUpTo(ab, |a| + n - 1), SaleUpTo(b, n - 1);
      assert SaleUpTo(ab, |a| + n) == if before.None? || !x.JObj? then None else Some(before.value + Earned(x.members));
      assert SaleUpTo(b, n) == if rest.None? || !x.JObj? then None else Some(rest.value + Earned(x.members));
    }
  }

  /** Selling two batches together totals what the two total apart. */
  lemma SaleSplit(a: seq<Json>, b: seq<Json>)
    ensures SaleUpTo(a + b, |a + b|) == Combine(SaleUpTo(a, |a|), SaleUpTo(b, |b|))
  {
    SaleSplitUpTo(a, b, |b|);
  }

  /** The loop over the sold items. */
  method SaleTotal(items: seq<Json>) returns (total: Option<int>)
    ensures total == SaleUpTo(items, |items|)
  {
    var sum := 0;
    var i := 0;
    while i < |items|
      invariant i <= |items|
      invariant SaleUpTo(items, i) == Some(sum)
    {
      if !items[i].JObj? {
        assert SaleUpTo(items, i + 1).None?;
        SaleNoneStays(items, i + 1, |items|);
        return None;
      }
      sum := sum + Earned(items[i].members);
      i := i + 1;
    }
    total := Some(sum);
  }

  /** Once the total fails it stays failed. */
  lemma {:induction false} SaleNoneStays(items: seq<Json>, n: nat, m: nat)
    requires n <= m <= |items| && SaleUpTo(items, n).None?
    ensures SaleUpTo(items, m).None?
    decreases m - n
  {
    if n < m {
      SaleNoneStays(items, n + 1, m);
    }
  }

  /** The ledger, outcome and messages of a sale. */
  datatype SaleStep = SaleStep(ledger: Ledger, flow: Flow, msgs: seq<string>)

  /** A positive total is added to the exobiology earnings and reported;
      a non-dict item raises before anything changes. */
  function SellSpec(l: Ledger, bio: Json): SaleStep {
    var items := RecordLoop(bio);
    if items.None? then SaleStep(l, Raised, [])
    else
      var total := SaleUpTo(items.value, |items.value|);
      if total.None? then SaleStep(l, Raised, [])
      else if total.value > 0 then
        SaleStep(l.(sessionExoEarnings := l.sessionExoEarnings + total.value), Continue,
          ["Exobiology sold: " + IntCommas(total.value) + " cr"])
      else SaleStep(l, Continue, [])
  }

  /** Two sales with non-negative totals earn what one sale of both lists earns. */
  lemma SellTwice(l: Ledger, a: seq<Json>, b: seq<Json>)
    requires SaleUpTo(a, |a|).Some? && SaleUpTo(a, |a|).value >= 0
    requires SaleUpTo(b, |b|).Some? && SaleUpTo(b, |b|).value >= 0
    ensures SellSpec(SellSpec(l, JList(a)).ledger, JList(b)).ledger == SellSpec(l, JList(a + b)).ledger
  {
    SaleSplit(a, b);
  }

  /** `session_exo_earnings`: the SellOrganicData branch. */
  method SellOrganicData(e: EventEngine, ev: Obj) returns (flow: Flow, msgs: seq<string>)
    modifies e.state`ledger
    ensures SaleStep(e.state.ledger, flow, msgs) == SellSpec(old(e.state.ledger), Or(Get(ev, "BioData"), JList([])))
  {
    msgs := [];
    var items := RecordLoop(Or(Get(ev, "BioData"), JList([])));
    if items.None? {
      return Raised, msgs;
    }
    var total := SaleTotal(items.value);
    if total.None? {
      return Raised, msgs;
    }
    if total.value > 0 {
      e.state.ledger := e.state.ledger.(sessionExoEarnings := e.state.ledger.sessionExoEarnings + total.value);
      msgs := ["Exobiology sold: " + IntCommas(total.value) + " cr"];
    }
    flow := Continue;
  }
}
