/** The exobiology value table: base values by localised species name. */
module ExoValues {
  import opened PyJson
  import opened Sources

  /** `ExoSpeciesValue`; the genus is whatever truthy value the file held. */
  datatype SpeciesValue = SpeciesValue(species: string, genus: Json, baseValue: int)

  type Table = map<string, SpeciesValue>

  /** The entry a species record gives: it must be a dict whose `base_value`
      is an `int` (a `bool` is one) and whose `genus` is truthy. */
  function Entry(name: string, rec: Json): (r: Option<SpeciesValue>)
    ensures r.Some? <==> rec.JObj? && IsInt(Get(rec.members, "base_value")) && Truthy(Get(rec.members, "genus"))
    ensures r.Some? ==> (r.value.species == name && r.value.baseValue == IntOf(Get(rec.members, "base_value"))
      && r.value.genus == Get(rec.members, "genus"))
  {
    if !rec.JObj? then None
    else
      var bv := Get(rec.members, "base_value");
      var gn := Or(Get(rec.members, "genus"), JStr(""));
      if IsInt(bv) && Truthy(gn) then Some(SpeciesValue(name, gn, IntOf(bv))) else None
  }

  /** The species gathered from the first `n` members of the `species`
      dict. A decoded dict holds each key once with its last value, so each
      member is read back through `Get`. */
  function SpeciesUpTo(ms: Obj, n: nat): Table
    requires n <= |ms|
  {
    if n == 0 then map[]
    else
      var name := ms[n - 1].key;
      match Entry(name, Get(ms, name))
      case None => SpeciesUpTo(ms, n - 1)
      case Some(e) => SpeciesUpTo(ms, n - 1)[name := e]
  }

  /** A species is in the table exactly when its record qualifies, and it
      holds that record's values. */
  lemma {:induction false} SpeciesUpToExact(ms: Obj, n: nat, name: string)
    requires n <= |ms|
    ensures name in SpeciesUpTo(ms, n) <==>
      (exists i :: 0 <= i < n && ms[i].key == name) && Entry(name, Get(ms, name)).Some?
    ensures name in SpeciesUpTo(ms, n) ==> SpeciesUpTo(ms, n)[name] == Entry(name, Get(ms, name)).value
  {
    if n > 0 {
      SpeciesUpToExact(ms, n - 1, name);
    }
  }

  /** The table built from a whole `species` dict. */
  lemma SpeciesExact(ms: Obj, name: string)
    ensures name in SpeciesUpTo(ms, |ms|) <==> Has(ms, name) && Entry(name, Get(ms, name)).Some?
    ensures name in SpeciesUpTo(ms, |ms|) ==> SpeciesUpTo(ms, |ms|)[name].baseValue == IntOf(Get(Get(ms, name).members, "base_value"))
  {
    SpeciesUpToExact(ms, |ms|, name);
  }

  /** The `for name, rec in species_map.items()` loop. */
  method CollectSpecies(ms: Obj) returns (out: Table)
    ensures out == SpeciesUpTo(ms, |ms|)
  {
    out := map[];
    var i := 0;
    while i < |ms|
      invariant 0 <= i <= |ms|
      invariant out == SpeciesUpTo(ms, i)
    {
      var name := ms[i].key;
      var e := Entry(name, Get(ms, name));
      if e.Some? {
        out := out[name := e.value];
      }
      i := i + 1;
    }
  }

  /** The species of one decoded document; None when reading it raises
      (the document or a truthy `species` value is not a dict). */
  function DocSpecies(data: Json): Option<Table> {
    if !data.JObj? then None
    else
      var sm := Or(Get(data.members, "species"), JObj([]));
      if sm.JObj? then Some(SpeciesUpTo(sm.members, |sm.members|)) else None
  }

  /** `load_from_paths`: the first path that yields a species wins. */
  function LoadSpec(paths: seq<SourceFile>): (r: Option<Table>)
    ensures r.Some? ==> r.value != map[]
  {
    if paths == [] then None
    else
      var here := if paths[0].Decoded? then DocSpecies(paths[0].doc) else None;
      if here.Some? && here.value != map[] then here else LoadSpec(paths[1..])
  }

  /** The table loaded is the one of the first path that gives one. */
  lemma {:induction false} LoadFirstWins(paths: seq<SourceFile>, i: nat)
    requires i < |paths| && paths[i].Decoded?
    requires DocSpecies(paths[i].doc).Some? && DocSpecies(paths[i].doc).value != map[]
    requires forall j :: 0 <= j < i ==> !paths[j].Decoded? || DocSpecies(paths[j].doc).None? || DocSpecies(paths[j].doc).value == map[]
    ensures LoadSpec(paths) == DocSpecies(paths[i].doc)
  {
    if i > 0 {
      LoadFirstWins(paths[1..], i - 1);
    }
  }

  /** `ExoValueTable.load_from_paths`. */
  method LoadFromPaths(paths: seq<SourceFile>) returns (t: Option<Table>)
    ensures t == LoadSpec(paths)
  {
    var i := 0;
    while i < |paths|
      invariant 0 <= i <= |paths|
      invariant LoadSpec(paths) == LoadSpec(paths[i..])
    {
      assert paths[i..][1..] == paths[i + 1..];
      var p := paths[i];
      if p.Decoded? && p.doc.JObj? {
        var sm := Or(Get(p.doc.members, "species"), JObj([]));
        if sm.JObj? {
          var out := CollectSpecies(sm.members);
          if out != map[] {
            return Some(out);
          }
        }
      }
      i := i + 1;
    }
    t := None;
  }

  /** `get_value(species_localised)`. */
  function GetValue(t: Table, speciesLocalised: string): (r: Option<int>)
    ensures speciesLocalised == [] ==> r.None?
    ensures r.Some? <==> speciesLocalised != [] && speciesLocalised in t
    ensures r.Some? ==> r.value == t[speciesLocalised].baseValue
  {
    if speciesLocalised == [] || speciesLocalised !in t then None
    else Some(t[speciesLocalised].baseValue)
  }

  /** The value read back is the record's `base_value`. */
  lemma GetValueFromDoc(ms: Obj, name: string)
    requires name != [] && Has(ms, name) && Entry(name, Get(ms, name)).Some?
    ensures GetValue(SpeciesUpTo(ms, |ms|), name) == Some(IntOf(Get(Get(ms, name).members, "base_value")))
  {
    SpeciesExact(ms, name);
  }
}
