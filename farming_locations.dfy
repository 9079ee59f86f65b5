/** The offline farming-location store: the records of every domain
    flattened into one list, with indexes by system and by material. */
module FarmingLocations {
  import opened PyText
  import opened PyJson
  import opened Sources

  /** The domain a record is filed under. */
  function DomainName(domain: string): (r: string)
    ensures r != []
    ensures Lower(Collapse(domain)) == [] ==> r == "other"
    ensures Lower(Collapse(domain)) != [] ==> r == Lower(Collapse(domain))
  {
    var d := Lower(Collapse(domain));
    if d == [] then "other" else d
  }

  /** `rec.get("key_materials") or rec.get("materials") or rec.get("mats") or []`,
      with anything but a list read as empty. */
  function MaterialsOf(rec: Obj): seq<Json> {
    var mats := Or(Or(Or(Get(rec, "key_materials"), Get(rec, "materials")), Get(rec, "mats")), JList([]));
    if mats.JList? then mats.items else []
  }

  function LowerAll(ss: seq<string>): (r: seq<string>)
    ensures |r| == |ss|
  {
    if ss == [] then [] else LowerAll(ss[..|ss| - 1]) + [Lower(ss[|ss| - 1])]
  }

  /** `out[k] = v` for a non-blank `v`; nothing for a blank one. */
  function Opt(k: string, v: string): Obj {
    if v != [] then [Member(k, JStr(v))] else []
  }

  lemma OptGet(k: string, v: string, k2: string)
    ensures Has(Opt(k, v), k2) <==> k2 == k && v != []
    ensures Has(Opt(k, v), k2) ==> Get(Opt(k, v), k2) == JStr(v)
  {
    if v != [] && k2 == k {
      assert Opt(k, v)[0].key == k2;
    }
  }

  /** `out = dict(rec)` followed by its writes, in order: the domain, the
      name (or "Farm Site"), the system, body and method when non-blank,
      and the cleaned materials. A later member of an object wins, so the
      writes are appended. */
  function Record(dom: string, rec: Obj, mats: seq<string>): Obj {
    var name := NormStr(Get(rec, "name"));
    rec + [Member("domain", JStr(dom)), Member("name", JStr(if name != [] then name else "Farm Site"))]
      + Opt("system", NormStr(Get(rec, "system"))) + Opt("body", NormStr(Get(rec, "body"))) + Opt("method", NormStr(Get(rec, "method")))
      + [Member("key_materials", JList(StrJsons(mats)))]
  }

  /** One dict record of a domain's list, flattened: the record appended
      to `_records`, its system key and its material keys. */
  datatype Entry = Entry(out: Json, systemKey: string, materialKeys: seq<string>)

  /** The entry `_load` makes of record `rec` of domain `dom`: its system
      key is `system.lower()` (none when the system is blank), its material
      keys `mat.lower()` for each cleaned material, repeats kept. */
  function MakeEntry(dom: string, rec: Obj): Entry {
    var mats := CleanUpTo(MaterialsOf(rec), |MaterialsOf(rec)|);
    Entry(JObj(Record(dom, rec, mats)), Lower(NormStr(Get(rec, "system"))), LowerAll(mats))
  }

  /** No key for a blank system, else the one key. */
  function Single(k: string): seq<string> {
    if k == [] then [] else [k]
  }

  /** The entries of the first `j` items of one domain's list; non-dicts are skipped. */
  function DomainEntries(dom: string, arr: seq<Json>, j: nat): seq<Entry>
    requires j <= |arr|
  {
    if j == 0 then []
    else DomainEntries(dom, arr, j - 1) + (if arr[j - 1].JObj? then [MakeEntry(dom, arr[j - 1].members)] else [])
  }

  /** The entries of the first `i` domains; a domain whose value is not a list is skipped. */
  function EntriesUpTo(domains: Obj, i: nat): seq<Entry>
    requires i <= |domains|
  {
    if i == 0 then []
    else
      var d := domains[i - 1];
      EntriesUpTo(domains, i - 1)
        + (if d.val.JList? then DomainEntries(DomainName(d.key), d.val.items, |d.val.items|) else [])
  }

  function EntryOut(e: Entry): Json {
    e.out
  }

  function SystemKeyOf(e: Entry): string {
    e.systemKey
  }

  /** An entry is filed under its system key unless that is blank. */
  function SystemKeys(e: Entry): seq<string> {
    Single(e.systemKey)
  }

  function MaterialKeys(e: Entry): seq<string> {
    e.materialKeys
  }

  /* The list and the indexes are built by generic folds over the entries,
     parameterised by the projections above. */

  function Outs(es: seq<Entry>, out: Entry -> Json): (r: seq<Json>)
    ensures |r| == |es|
  {
    if es == [] then [] else Outs(es[..|es| - 1], out) + [out(es[|es| - 1])]
  }

  function Lookup(index: map<string, seq<Json>>, k: string): seq<Json> {
    if k in index then index[k] else []
  }

  /** `index.setdefault(k, []).append(out)` for each key, in order. */
  function AddAll(index: map<string, seq<Json>>, ks: seq<string>, out: Json): map<string, seq<Json>> {
    if ks == [] then index
    else
      var m := AddAll(index, ks[..|ks| - 1], out);
      var k := ks[|ks| - 1];
      m[k := Lookup(m, k) + [out]]
  }

  function Index(es: seq<Entry>, sel: Entry -> seq<string>, out: Entry -> Json): map<string, seq<Json>> {
    if es == [] then map[]
    else AddAll(Index(es[..|es| - 1], sel, out), sel(es[|es| - 1]), out(es[|es| - 1]))
  }

  function Count(ks: seq<string>, k: string): nat {
    if ks == [] then 0 else Count(ks[..|ks| - 1], k) + (if ks[|ks| - 1] == k then 1 else 0)
  }

  function Repeat(x: Json, n: nat): seq<Json> {
    if n == 0 then [] else Repeat(x, n - 1) + [x]
  }

  /** The reference answer: each entry's record once per time it is filed
      under `k`, in load order. */
  function Occurrences(es: seq<Entry>, k: string, sel: Entry -> seq<string>, out: Entry -> Json): seq<Json> {
    if es == [] then []
    else Occurrences(es[..|es| - 1], k, sel, out) + Repeat(out(es[|es| - 1]), Count(sel(es[|es| - 1]), k))
  }

  lemma {:induction false} RepeatAdd(x: Json, a: nat, b: nat)
    ensures Repeat(x, a) + Repeat(x, b) == Repeat(x, a + b)
  {
    if b > 0 {
      RepeatAdd(x, a, b - 1);
    }
  }

  lemma {:induction false} AddAllLookup(index: map<string, seq<Json>>, ks: seq<string>, out: Json, k: string)
    ensures Lookup(AddAll(index, ks, out), k) == Lookup(index, k) + Repeat(out, Count(ks, k))
  {
    if ks != [] {
      AddAllLookup(index, ks[..|ks| - 1], out, k);
      var c := Count(ks[..|ks| - 1], k);
      if ks[|ks| - 1] == k {
        RepeatAdd(out, c, 1);
      }
    }
  }

  /** An index holds, under every key, exactly the reference occurrences. */
  lemma {:induction false} IndexLookup(es: seq<Entry>, k: string, sel: Entry -> seq<string>, out: Entry -> Json)
    ensures Lookup(Index(es, sel, out), k) == Occurrences(es, k, sel, out)
  {
    if es != [] {
      var last := es[|es| - 1];
      IndexLookup(es[..|es| - 1], k, sel, out);
      AddAllLookup(Index(es[..|es| - 1], sel, out), sel(last), out(last), k);
    }
  }

  /** The records of the entries whose key is `k`, in load order. */
  function Matches(es: seq<Entry>, k: string, key: Entry -> string, out: Entry -> Json): seq<Json> {
    if es == [] then []
    else Matches(es[..|es| - 1], k, key, out) + (if key(es[|es| - 1]) == k then [out(es[|es| - 1])] else [])
  }

  lemma CountSingle(x: string, k: string)
    requires k != []
    ensures Count(Single(x), k) == if x == k then 1 else 0
  {
    if x != [] {
      assert [x][..0] == [];
    }
  }

  /** Filing each entry under at most one key, its own, files under `k`
      exactly the entries whose key is `k`. */
  lemma {:induction false} SingleOccurrences(es: seq<Entry>, k: string, sel: Entry -> seq<string>, key: Entry -> string, out: Entry -> Json)
    requires k != []
    requires forall i :: 0 <= i < |es| ==> sel(es[i]) == Single(key(es[i]))
    ensures Occurrences(es, k, sel, out) == Matches(es, k, key, out)
  {
    if es != [] {
      var front, last := es[..|es| - 1], es[|es| - 1];
      assert forall i :: 0 <= i < |front| ==> front[i] == es[i];
      SingleOccurrences(front, k, sel, key, out);
      CountSingle(key(last), k);
      assert Repeat(out(last), 0) == [];
      assert Repeat(out(last), 1) == [out(last)];
    }
  }

  /** Every indexed record is a dict. */
  lemma {:induction false} OccurrencesAreObjects(es: seq<Entry>, k: string, sel: Entry -> seq<string>, out: Entry -> Json)
    requires forall i :: 0 <= i < |es| ==> out(es[i]).JObj?
    ensures forall i :: 0 <= i < |Occurrences(es, k, sel, out)| ==> Occurrences(es, k, sel, out)[i].JObj?
  {
    if es != [] {
      var front, last := es[..|es| - 1], es[|es| - 1];
      assert forall i :: 0 <= i < |front| ==> front[i] == es[i];
      OccurrencesAreObjects(front, k, sel, out);
      RepeatObjects(out(last), Count(sel(last), k));
      var a: seq<Json>, b: seq<Json> := Occurrences(front, k, sel, out), Repeat(out(last), Count(sel(last), k));
      forall i | 0 <= i < |a + b| ensures (a + b)[i].JObj? {
        if i >= |a| { assert (a + b)[i] == b[i - |a|]; }
      }
    }
  }

  lemma {:induction false} RepeatObjects(x: Json, n: nat)
    requires x.JObj?
    ensures forall i :: 0 <= i < |Repeat(x, n)| ==> Repeat(x, n)[i] == x
  {
    if n > 0 {
      RepeatObjects(x, n - 1);
    }
  }

  /** Appending an entry appends its record and files it under its keys. */
  lemma EntriesSnoc(es: seq<Entry>, e: Entry, sel: Entry -> seq<string>, out: Entry -> Json)
    ensures Outs(es + [e], out) == Outs(es, out) + [out(e)]
    ensures Index(es + [e], sel, out) == AddAll(Index(es, sel, out), sel(e), out(e))
  {
    assert (es + [e])[..|es|] == es;
  }

  lemma {:induction false} DomainEntriesObjects(dom: string, arr: seq<Json>, j: nat)
    requires j <= |arr|
    ensures forall i :: 0 <= i < |DomainEntries(dom, arr, j)| ==> EntryOut(DomainEntries(dom, arr, j)[i]).JObj?
  {
    if j > 0 {
      DomainEntriesObjects(dom, arr, j - 1);
    }
  }

  lemma {:induction false} EntriesObjects(domains: Obj, i: nat)
    requires i <= |domains|
    ensures forall k :: 0 <= k < |EntriesUpTo(domains, i)| ==> EntryOut(EntriesUpTo(domains, i)[k]).JObj?
  {
    if i > 0 {
      EntriesObjects(domains, i - 1);
      var d := domains[i - 1];
      if d.val.JList? {
        DomainEntriesObjects(DomainName(d.key), d.val.items, |d.val.items|);
      }
    }
  }

  /** The records, the system index and the material index of a list of entries. */
  function Records(es: seq<Entry>): seq<Json> {
    Outs(es, EntryOut)
  }

  function BySystem(es: seq<Entry>): map<string, seq<Json>> {
    Index(es, SystemKeys, EntryOut)
  }

  function ByMaterial(es: seq<Entry>): map<string, seq<Json>> {
    Index(es, MaterialKeys, EntryOut)
  }

  /** The records whose system key is `k`. */
  function SystemMatches(es: seq<Entry>, k: string): seq<Json> {
    Matches(es, k, SystemKeyOf, EntryOut)
  }

  /** The records filed under material `k`, once per listing. */
  function MaterialOccurrences(es: seq<Entry>, k: string): seq<Json> {
    Occurrences(es, k, MaterialKeys, EntryOut)
  }

  /** The store `_load` keeps. */
  datatype Store = Store(
    mtime: Option<real>,
    lastUpdated: Option<string>,
    records: seq<Json>,
    bySystem: map<string, seq<Json>>,
    byMaterial: map<string, seq<Json>>,
    bgsTips: Obj)

  const EmptyStore := Store(None, None, [], map[], map[], [])

  /** The entries of a decoded document. */
  function DocEntries(data: Json): seq<Entry> {
    var farming := if data.JObj? then Or(Get(data.members, "farming_locations"), JObj([])) else JObj([]);
    if farming.JObj? then EntriesUpTo(Items(farming.members), |Items(farming.members)|) else []
  }

  /** The store built from a decoded document read at time `m`. */
  function Parse(m: real, data: Json): Store {
    var lu := if data.JObj? then NormStr(Get(data.members, "last_updated")) else [];
    var tips := if data.JObj? then Or(Get(data.members, "bgs_tips"), JObj([])) else JObj([]);
    var es := DocEntries(data);
    Store(Some(m), if lu != [] then Some(lu) else None, Records(es),
      BySystem(es), ByMaterial(es), if tips.JObj? then tips.members else [])
  }

  /** `_load(force)` given what the file looks like now. */
  function LoadSpec(s: Store, force: bool, obs: Observed): (r: Store)
    ensures obs.Absent? ==> r == EmptyStore
    ensures obs.Present? && !force && s.mtime == Some(obs.mtime) ==> r == s
    ensures obs.Present? && (force || s.mtime != Some(obs.mtime)) && obs.content.None? ==> r == EmptyStore
  {
    match obs
    case Absent => EmptyStore
    case Present(m, content) =>
      if !force && s.mtime == Some(m) then s
      else
        match content
        case None => EmptyStore
        case Some(doc) => Parse(m, doc)
  }

  /** An index query: nothing for a blank key, else the dict records filed under it. */
  function ForKey(index: map<string, seq<Json>>, k: string): seq<Json> {
    if k == [] then [] else ObjItems(Lookup(index, k))
  }

  /** `get_for_system(system_name)` after its reload. */
  function ForSystem(s: Store, systemName: Json): seq<Json> {
    ForKey(s.bySystem, Lower(NormStr(systemName)))
  }

  /** `get_for_material(material_name)` after its reload. */
  function ForMaterial(s: Store, materialName: Json): seq<Json> {
    ForKey(s.byMaterial, Lower(NormStr(materialName)))
  }

  /** A loaded document answers a system query with exactly the records
      whose normalised lower-cased system is the normalised lower-cased
      name, in load order. */
  lemma ForSystemOfDoc(m: real, data: Json, systemName: Json)
    requires Lower(NormStr(systemName)) != []
    ensures ForSystem(Parse(m, data), systemName) == SystemMatches(DocEntries(data), Lower(NormStr(systemName)))
  {
    var es, k := DocEntries(data), Lower(NormStr(systemName));
    IndexLookup(es, k, SystemKeys, EntryOut);
    SingleOccurrences(es, k, SystemKeys, SystemKeyOf, EntryOut);
    DocEntriesObjects(data);
    OccurrencesAreObjects(es, k, SystemKeys, EntryOut);
    ObjItemsOfObjs(Occurrences(es, k, SystemKeys, EntryOut));
  }

  /** A loaded document answers a material query with each record once per
      time the material is listed in it. */
  lemma ForMaterialOfDoc(m: real, data: Json, materialName: Json)
    requires Lower(NormStr(materialName)) != []
    ensures ForMaterial(Parse(m, data), materialName) == MaterialOccurrences(DocEntries(data), Lower(NormStr(materialName)))
  {
    var es, k := DocEntries(data), Lower(NormStr(materialName));
    IndexLookup(es, k, MaterialKeys, EntryOut);
    DocEntriesObjects(data);
    OccurrencesAreObjects(es, k, MaterialKeys, EntryOut);
    ObjItemsOfObjs(MaterialOccurrences(es, k));
  }

  lemma DocEntriesObjects(data: Json)
    ensures forall i :: 0 <= i < |DocEntries(data)| ==> EntryOut(DocEntries(data)[i]).JObj?
  {
    var farming := if data.JObj? then Or(Get(data.members, "farming_locations"), JObj([])) else JObj([]);
    if farming.JObj? {
      EntriesObjects(Items(farming.members), |Items(farming.members)|);
    }
  }

  /** A blank name finds nothing. */
  lemma ForBlank(s: Store, name: Json)
    requires !name.JStr? || Collapse(name.s) == []
    ensures ForSystem(s, name) == [] && ForMaterial(s, name) == []
  {
  }

  /** `FarmingLocations`: the file path is fixed at construction; each
      poll's view of it is passed in. */
  class Farming {
    var mtime: Option<real>
    var lastUpdated: Option<string>
    var records: seq<Json>
    var bySystem: map<string, seq<Json>>
    var byMaterial: map<string, seq<Json>>
    var bgsTips: Obj

    function Snap(): Store
      reads this
    {
      Store(mtime, lastUpdated, records, bySystem, byMaterial, bgsTips)
    }

    constructor (obs: Observed)
      ensures Snap() == LoadSpec(EmptyStore, true, obs)
    {
      mtime, lastUpdated, records, bySystem, byMaterial, bgsTips := None, None, [], map[], map[], [];
      new;
      Load(true, obs);
    }

    /** The `for x in mats` loop. */
    static method CleanMaterials(mats: seq<Json>) returns (clean: seq<string>)
      ensures clean == CleanUpTo(mats, |mats|)
    {
      clean := [];
      var k := 0;
      while k < |mats|
        invariant 0 <= k <= |mats|
        invariant clean == CleanUpTo(mats, k)
      {
        var s := NormStr(mats[k]);
        CleanStep(mats, k, s);
        if s != [] {
          clean := clean + [s];
        }
        k := k + 1;
      }
    }

    /** `by_material.setdefault(mat.lower(), []).append(out)` for each material. */
    static method FileMaterials(index: map<string, seq<Json>>, mats: seq<string>, out: Json)
      returns (r: map<string, seq<Json>>)
      ensures r == AddAll(index, LowerAll(mats), out)
    {
      r := index;
      var k := 0;
      while k < |mats|
        invariant 0 <= k <= |mats|
        invariant r == AddAll(index, LowerAll(mats[..k]), out)
      {
        assert mats[..k + 1][..k] == mats[..k];
        var mk := Lower(mats[k]);
        r := r[mk := Lookup(r, mk) + [out]];
        k := k + 1;
      }
      assert mats[..k] == mats;
    }

    /** The body of the inner loop of `_load`: one dict record flattened,
        appended and filed under its system and materials. */
    static method FileRecord(dom: string, rec: Obj, recs0: seq<Json>, sys0: map<string, seq<Json>>,
                             mat0: map<string, seq<Json>>, ghost es: seq<Entry>)
      returns (recs: seq<Json>, sys: map<string, seq<Json>>, mat: map<string, seq<Json>>)
      requires recs0 == Records(es) && sys0 == BySystem(es) && mat0 == ByMaterial(es)
      ensures recs == Records(es + [MakeEntry(dom, rec)])
      ensures sys == BySystem(es + [MakeEntry(dom, rec)])
      ensures mat == ByMaterial(es + [MakeEntry(dom, rec)])
    {
      var mats := CleanMaterials(MaterialsOf(rec));
      var system := NormStr(Get(rec, "system"));
      var out := JObj(Record(dom, rec, mats));
      ghost var e := MakeEntry(dom, rec);
      assert EntryOut(e) == out;
      EntriesSnoc(es, e, SystemKeys, EntryOut);
      EntriesSnoc(es, e, MaterialKeys, EntryOut);
      recs := recs0 + [out];
      sys := sys0;
      if system != [] {
        sys := sys[Lower(system) := Lookup(sys, Lower(system)) + [out]];
        assert SystemKeys(e) == [Lower(system)];
        assert [Lower(system)][..0] == [];
      } else {
        assert SystemKeys(e) == [];
      }
      assert sys == AddAll(sys0, SystemKeys(e), out);
      mat := FileMaterials(mat0, mats, out);
      assert MaterialKeys(e) == LowerAll(mats);
    }

    /** One pass of the inner loop of `_load`: item `j` of a domain's list,
        filed when it is a dict and skipped otherwise. */
    static method FileItem(dom: string, items: seq<Json>, j: nat, recs0: seq<Json>, sys0: map<string, seq<Json>>,
                           mat0: map<string, seq<Json>>, ghost before: seq<Entry>)
      returns (recs: seq<Json>, sys: map<string, seq<Json>>, mat: map<string, seq<Json>>)
      requires j < |items|
      requires var es := before + DomainEntries(dom, items, j);
        recs0 == Records(es) && sys0 == BySystem(es) && mat0 == ByMaterial(es)
      ensures var es := before + DomainEntries(dom, items, j + 1);
        recs == Records(es) && sys == BySystem(es) && mat == ByMaterial(es)
    {
      ghost var d := DomainEntries(dom, items, j);
      var rec := items[j];
      if rec.JObj? {
        recs, sys, mat := FileRecord(dom, rec.members, recs0, sys0, mat0, before + d);
        ghost var e := MakeEntry(dom, rec.members);
        assert DomainEntries(dom, items, j + 1) == d + [e];
        assert before + (d + [e]) == (before + d) + [e];
      } else {
        recs, sys, mat := recs0, sys0, mat0;
        assert DomainEntries(dom, items, j + 1) == d + [];
        assert d + [] == d;
      }
    }

    /** The inner loop of `_load` over one domain's list. */
    static method FileDomain(dom: string, items: seq<Json>, recs0: seq<Json>, sys0: map<string, seq<Json>>,
                             mat0: map<string, seq<Json>>, ghost before: seq<Entry>)
      returns (recs: seq<Json>, sys: map<string, seq<Json>>, mat: map<string, seq<Json>>)
      requires recs0 == Records(before) && sys0 == BySystem(before) && mat0 == ByMaterial(before)
      ensures recs == Records(before + DomainEntries(dom, items, |items|))
      ensures sys == BySystem(before + DomainEntries(dom, items, |items|))
      ensures mat == ByMaterial(before + DomainEntries(dom, items, |items|))
    {
      recs, sys, mat := recs0, sys0, mat0;
      assert before + DomainEntries(dom, items, 0) == before;
      var j := 0;
      while j < |items|
        invariant 0 <= j <= |items|
        invariant var es := before + DomainEntries(dom, items, j);
          recs == Records(es) && sys == BySystem(es) && mat == ByMaterial(es)
      {
        recs, sys, mat := FileItem(dom, items, j, recs, sys, mat, before);
        j := j + 1;
      }
    }

    /** The outer loop of `_load` over the `farming_locations` domains. */
    static method Flatten(domains: Obj)
      returns (recs: seq<Json>, sys: map<string, seq<Json>>, mat: map<string, seq<Json>>)
      ensures recs == Records(EntriesUpTo(domains, |domains|))
      ensures sys == BySystem(EntriesUpTo(domains, |domains|))
      ensures mat == ByMaterial(EntriesUpTo(domains, |domains|))
    {
      recs, sys, mat := [], map[], map[];
      ghost var es: seq<Entry> := [];
      var i := 0;
      while i < |domains|
        invariant 0 <= i <= |domains|
        invariant es == EntriesUpTo(domains, i)
        invariant recs == Records(es) && sys == BySystem(es) && mat == ByMaterial(es)
      {
        var arr := domains[i].val;
        if arr.JList? {
          var dom := DomainName(domains[i].key);
          recs, sys, mat := FileDomain(dom, arr.items, recs, sys, mat, es);
          es := es + DomainEntries(dom, arr.items, |arr.items|);
        }
        i := i + 1;
      }
    }

    /** `_load(force)`. */
    method Load(force: bool, obs: Observed)
      modifies this
      ensures Snap() == LoadSpec(old(Snap()), force, obs)
    {
      if obs.Absent? {
        mtime, lastUpdated, records, bySystem, byMaterial, bgsTips := None, None, [], map[], map[], [];
        return;
      }
      var m := obs.mtime;
      if !force && mtime == Some(m) {
        return;
      }
      if obs.content.None? {
        mtime, lastUpdated, records, bySystem, byMaterial, bgsTips := None, None, [], map[], map[], [];
        return;
      }
      var data := obs.content.value;
      mtime := Some(m);
      lastUpdated := None;
      var farming, tips := JObj([]), JObj([]);
      if data.JObj? {
        var lu := NormStr(Get(data.members, "last_updated"));
        lastUpdated := if lu != [] then Some(lu) else None;
        farming := Or(Get(data.members, "farming_locations"), JObj([]));
        tips := Or(Get(data.members, "bgs_tips"), JObj([]));
      }
      bgsTips := if tips.JObj? then tips.members else [];
      var recs, sys, mat := [], map[], map[];
      if farming.JObj? {
        recs, sys, mat := Flatten(Items(farming.members));
      }
      records, bySystem, byMaterial := recs, sys, mat;
    }

    /** `get_for_system(system_name)`. */
    method GetForSystem(obs: Observed, systemName: Json) returns (r: seq<Json>)
      modifies this
      ensures Snap() == LoadSpec(old(Snap()), false, obs)
      ensures r == ForSystem(Snap(), systemName)
    {
      Load(false, obs);
      var sk := Lower(NormStr(systemName));
      if sk == [] {
        return [];
      }
      r := ObjItems(Lookup(bySystem, sk));
    }

    /** `get_for_material(material_name)`. */
    method GetForMaterial(obs: Observed, materialName: Json) returns (r: seq<Json>)
      modifies this
      ensures Snap() == LoadSpec(old(Snap()), false, obs)
      ensures r == ForMaterial(Snap(), materialName)
    {
      Load(false, obs);
      var mk := Lower(NormStr(materialName));
      if mk == [] {
        return [];
      }
      r := ObjItems(Lookup(byMaterial, mk));
    }

    /** `has_data()`. */
    method HasData(obs: Observed) returns (b: bool)
      modifies this
      ensures Snap() == LoadSpec(old(Snap()), false, obs)
      ensures b == (Snap().records != [])
    {
      Load(false, obs);
      b := records != [];
    }
  }

  /** A missing file, or one that cannot be read, leaves no data. */
  lemma NoDataWithoutFile(s: Store, force: bool, obs: Observed)
    requires obs.Absent? || (obs.Present? && obs.content.None? && (force || s.mtime != Some(obs.mtime)))
    ensures LoadSpec(s, force, obs).records == []
  {
  }


  /** What a flattened record reads under each key: the last write to it,
      else the record's own value. */
  lemma RecordGet(dom: string, rec: Obj, mats: seq<string>, k: string)
    ensures var name, v := NormStr(Get(rec, "name")), NormStr(Get(rec, k));
      Get(Record(dom, rec, mats), k) ==
        if k == "key_materials" then JList(StrJsons(mats))
        else if k == "name" then JStr(if name != [] then name else "Farm Site")
        else if k == "domain" then JStr(dom)
        else if (k == "system" || k == "body" || k == "method") && v != [] then JStr(v)
        else Get(rec, k)
  {
    var name := NormStr(Get(rec, "name"));
    var n: Obj := [Member("domain", JStr(dom)), Member("name", JStr(if name != [] then name else "Farm Site"))];
    var o1, o2, o3 := Opt("system", NormStr(Get(rec, "system"))), Opt("body", NormStr(Get(rec, "body"))), Opt("method", NormStr(Get(rec, "method")));
    var km: Obj := [Member("key_materials", JList(StrJsons(mats)))];
    var r1 := rec + n;
    var r2 := r1 + o1;
    var r3 := r2 + o2;
    var r4 := r3 + o3;
    assert Record(dom, rec, mats) == r4 + km;
    GetConcat(r4, km, k);
    GetConcat(r3, o3, k);
    GetConcat(r2, o2, k);
    GetConcat(r1, o1, k);
    GetConcat(rec, n, k);
    OptGet("system", NormStr(Get(rec, "system")), k);
    OptGet("body", NormStr(Get(rec, "body")), k);
    OptGet("method", NormStr(Get(rec, "method")), k);
    assert Has(km, k) <==> k == "key_materials" by {
      if k == "key_materials" { assert km[0].key == k; }
    }
    assert Has(n, k) <==> k == "domain" || k == "name" by {
      if k == "domain" { assert n[0].key == k; }
      if k == "name" { assert n[1].key == k; }
    }
    if k == "domain" {
      assert n[1].key != k;
    }
  }
}
