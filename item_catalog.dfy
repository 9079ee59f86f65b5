/** The offline item catalog: item records by case-folded, whitespace-
    collapsed name, with a count of the records loaded. */
module ItemCatalog {
  import opened PyText
  import opened PyJson
  import opened Sources

  /** `_key(name)`: the normalised name, lower-cased. */
  function Key(name: Json): string {
    Lower(NormStr(name))
  }

  /** The `locations` a record is given: the non-empty normalised strings of
      a list, a lone non-blank string as a one-element list, else none. */
  function Locations(v: Json): seq<Json> {
    if v.JList? then StrJsons(CleanUpTo(v.items, |v.items|))
    else if v.JStr? then (if NormStr(v) != [] then [JStr(NormStr(v))] else [])
    else []
  }

  /** `out[f] = _norm(out.get(f))` when the record has field `f`. */
  function NormField(rec: Obj, f: string): Obj {
    if Has(rec, f) then [Member(f, JStr(NormStr(Get(rec, f))))] else []
  }

  /** `out = dict(rec)` followed by its writes, in order: the normalised
      name, the normalised type, subtype and grade where present, and the
      locations. A later member of an object wins, so the writes are
      appended. */
  function Flat(rec: Obj, name: string): Obj {
    rec + [Member("name", JStr(name))] + NormField(rec, "type") + NormField(rec, "subtype") + NormField(rec, "grade")
      + [Member("locations", JList(Locations(Get(rec, "locations"))))]
  }

  /** What one element of the `items` list contributes. */
  datatype ItemParse = Skipped | Named(key: string, out: Obj)

  /** A non-dict, or a dict whose normalised name is blank, is skipped. */
  function ParseItem(v: Json): ItemParse {
    if !v.JObj? then Skipped
    else
      var name := NormStr(Get(v.members, "name"));
      if name == [] then Skipped else Named(Key(JStr(name)), Flat(v.members, name))
  }

  /* The catalogue is a fold over the items, parameterised by how one item
     is read, so that its laws hold for any reading. */

  /** `by_name` after the first `n` items: each key holds the last record
      filed under it. */
  function ByNameBy(items: seq<Json>, n: nat, parse: Json -> ItemParse): map<string, Obj>
    requires n <= |items|
  {
    if n == 0 then map[]
    else
      var p := parse(items[n - 1]);
      if p.Named? then ByNameBy(items, n - 1, parse)[p.key := p.out] else ByNameBy(items, n - 1, parse)
  }

  /** `count` after the first `n` items: one per named record. */
  function CountBy(items: seq<Json>, n: nat, parse: Json -> ItemParse): nat
    requires n <= |items|
  {
    if n == 0 then 0
    else CountBy(items, n - 1, parse) + (if parse(items[n - 1]).Named? then 1 else 0)
  }

  /** One more item files its record when it is named, and counts it. */
  lemma FoldStep(items: seq<Json>, n: nat, parse: Json -> ItemParse, p: ItemParse)
    requires n < |items| && p == parse(items[n])
    ensures ByNameBy(items, n + 1, parse) == if p.Named? then ByNameBy(items, n, parse)[p.key := p.out] else ByNameBy(items, n, parse)
    ensures CountBy(items, n + 1, parse) == CountBy(items, n, parse) + if p.Named? then 1 else 0
  {
  }

  function ByNameUpTo(items: seq<Json>, n: nat): map<string, Obj>
    requires n <= |items|
  {
    ByNameBy(items, n, ParseItem)
  }

  function CountUpTo(items: seq<Json>, n: nat): nat
    requires n <= |items|
  {
    CountBy(items, n, ParseItem)
  }

  predicate NamedAs(p: ItemParse, k: string) {
    p.Named? && p.key == k
  }

  /** A key is catalogued exactly when some named record has it. */
  lemma {:induction false} ByNameHas(items: seq<Json>, n: nat, k: string, parse: Json -> ItemParse)
    requires n <= |items|
    ensures k in ByNameBy(items, n, parse) <==> exists i :: 0 <= i < n && NamedAs(parse(items[i]), k)
  {
    if n > 0 {
      ByNameHas(items, n - 1, k, parse);
      if NamedAs(parse(items[n - 1]), k) {
        assert 0 <= n - 1 < n && NamedAs(parse(items[n - 1]), k);
      }
    }
  }

  /** A key holds the record of the last item named with it. */
  lemma {:induction false} ByNameLast(items: seq<Json>, n: nat, i: nat, k: string, parse: Json -> ItemParse)
    requires i < n <= |items|
    requires NamedAs(parse(items[i]), k)
    requires forall j :: i < j < n ==> !NamedAs(parse(items[j]), k)
    ensures k in ByNameBy(items, n, parse) && ByNameBy(items, n, parse)[k] == parse(items[i]).out
  {
    if n - 1 > i {
      ByNameLast(items, n - 1, i, k, parse);
    }
  }

  /** Records that share a key are all counted but catalogued once:
      there are never more keys than the count. */
  lemma {:induction false} KeysWithinCount(items: seq<Json>, n: nat, parse: Json -> ItemParse)
    requires n <= |items|
    ensures |ByNameBy(items, n, parse).Keys| <= CountBy(items, n, parse)
  {
    if n > 0 {
      KeysWithinCount(items, n - 1, parse);
      var p := parse(items[n - 1]);
      if p.Named? {
        var m := ByNameBy(items, n - 1, parse);
        assert m[p.key := p.out].Keys == m.Keys + {p.key};
      }
    }
  }

  /** Two records with the same key count twice, and the catalogue keeps
      the second. */
  lemma DuplicateCountedTwice(a: Json, b: Json, parse: Json -> ItemParse)
    requires parse(a).Named? && parse(b).Named? && parse(a).key == parse(b).key
    ensures CountBy([a, b], 2, parse) == 2
    ensures ByNameBy([a, b], 2, parse) == map[parse(b).key := parse(b).out]
  {
    var xs := [a, b];
    assert xs[0] == a && xs[1] == b;
    assert CountBy(xs, 1, parse) == 1;
    assert ByNameBy(xs, 1, parse) == map[parse(a).key := parse(a).out];
  }

  /** Two dict records whose names normalise and case-fold alike: both are
      counted, and the second is the one catalogued. */
  lemma SameNameCountedTwice(a: Obj, b: Obj)
    requires NormStr(Get(a, "name")) != [] && NormStr(Get(b, "name")) != []
    requires Key(JStr(NormStr(Get(a, "name")))) == Key(JStr(NormStr(Get(b, "name"))))
    ensures CountUpTo([JObj(a), JObj(b)], 2) == 2
    ensures ByNameUpTo([JObj(a), JObj(b)], 2) == map[Key(Get(b, "name")) := Flat(b, NormStr(Get(b, "name")))]
  {
    var nb := NormStr(Get(b, "name"));
    assert Key(JStr(nb)) == Key(Get(b, "name")) by {
      CollapseIdempotent(Get(b, "name").s);
    }
    DuplicateCountedTwice(JObj(a), JObj(b), ParseItem);
  }

  /** The stored name is the normalised one and the key is its lower-cased form. */
  lemma FlatName(rec: Obj, name: string)
    ensures Get(Flat(rec, name), "name") == JStr(name)
  {
    var n1 := rec + [Member("name", JStr(name))];
    var n2 := n1 + NormField(rec, "type");
    var n3 := n2 + NormField(rec, "subtype");
    var n4 := n3 + NormField(rec, "grade");
    var l: Obj := [Member("locations", JList(Locations(Get(rec, "locations"))))];
    assert Flat(rec, name) == n4 + l;
    GetConcat(n4, l, "name");
    GetConcat(n3, NormField(rec, "grade"), "name");
    GetConcat(n2, NormField(rec, "subtype"), "name");
    GetConcat(n1, NormField(rec, "type"), "name");
    GetConcat(rec, [Member("name", JStr(name))], "name");
    NormFieldOther(rec, "type", "name");
    NormFieldOther(rec, "subtype", "name");
    NormFieldOther(rec, "grade", "name");
    assert [Member("name", JStr(name))][0].key == "name";
  }

  lemma NormFieldOther(rec: Obj, f: string, k: string)
    requires k != f
    ensures !Has(NormField(rec, f), k)
  {
  }

  lemma NormFieldSame(rec: Obj, f: string)
    ensures Has(NormField(rec, f), f) <==> Has(rec, f)
    ensures Has(rec, f) ==> Get(NormField(rec, f), f) == JStr(NormStr(Get(rec, f)))
  {
    if Has(rec, f) {
      assert NormField(rec, f)[0].key == f;
    }
  }

  /** The stored `locations` are the record's locations as normalised. */
  lemma FlatLocations(rec: Obj, name: string)
    ensures Get(Flat(rec, name), "locations") == JList(Locations(Get(rec, "locations")))
  {
    var n4 := rec + [Member("name", JStr(name))] + NormField(rec, "type") + NormField(rec, "subtype") + NormField(rec, "grade");
    var l: Obj := [Member("locations", JList(Locations(Get(rec, "locations"))))];
    assert Flat(rec, name) == n4 + l;
    GetConcat(n4, l, "locations");
    assert l[0].key == "locations";
  }

  /** A type, subtype or grade the record has is stored normalised; one it
      lacks stays absent. */
  lemma FlatField(rec: Obj, name: string, f: string)
    requires f == "type" || f == "subtype" || f == "grade"
    ensures Has(rec, f) ==> Get(Flat(rec, name), f) == JStr(NormStr(Get(rec, f)))
    ensures !Has(rec, f) ==> Get(Flat(rec, name), f) == JNull
  {
    var n1 := rec + [Member("name", JStr(name))];
    var n2 := n1 + NormField(rec, "type");
    var n3 := n2 + NormField(rec, "subtype");
    var n4 := n3 + NormField(rec, "grade");
    var l: Obj := [Member("locations", JList(Locations(Get(rec, "locations"))))];
    assert Flat(rec, name) == n4 + l;
    GetConcat(n4, l, f);
    GetConcat(n3, NormField(rec, "grade"), f);
    GetConcat(n2, NormField(rec, "subtype"), f);
    GetConcat(n1, NormField(rec, "type"), f);
    GetConcat(rec, [Member("name", JStr(name))], f);
    NormFieldSame(rec, f);
    if f != "type" { NormFieldOther(rec, "type", f); }
    if f != "subtype" { NormFieldOther(rec, "subtype", f); }
    if f != "grade" { NormFieldOther(rec, "grade", f); }
  }

  lemma {:induction false} StrJsonsAt(ss: seq<string>)
    ensures forall i :: 0 <= i < |ss| ==> StrJsons(ss)[i] == JStr(ss[i])
  {
    if ss != [] {
      StrJsonsAt(ss[1..]);
      forall i | 0 < i < |ss| ensures StrJsons(ss)[i] == JStr(ss[i]) {
        assert StrJsons(ss)[i] == StrJsons(ss[1..])[i - 1];
      }
    }
  }

  /** Every stored location is a non-empty normalised string. */
  lemma LocationsClean(v: Json)
    ensures forall i :: 0 <= i < |Locations(v)| ==>
      Locations(v)[i].JStr? && Locations(v)[i].s != [] && NormStr(Locations(v)[i]) == Locations(v)[i].s
  {
    if v.JList? {
      var c := CleanUpTo(v.items, |v.items|);
      CleanUpToNormal(v.items, |v.items|);
      StrJsonsAt(c);
    } else if v.JStr? && NormStr(v) != [] {
      CollapseIdempotent(v.s);
    }
  }

  /** `f"{t} / {st}"` when both are set, else whichever is set, else "". */
  function Label(t: string, st: string): (r: string)
    ensures t != [] && st != [] ==> r == t + " / " + st
    ensures t != [] && st == [] ==> r == t
    ensures t == [] ==> r == st
  {
    if t != [] && st != [] then t + " / " + st
    else if t != [] then t
    else st
  }

  /** `get_subtype_label` of a found record; "" for an empty one. */
  function SubtypeLabel(rec: Obj): string {
    if rec == [] then "" else Label(NormStr(Get(rec, "type")), NormStr(Get(rec, "subtype")))
  }

  /** A catalogued record's label is built from its own type and subtype,
      normalised. */
  lemma SubtypeLabelOfItem(rec: Obj, name: string)
    ensures SubtypeLabel(Flat(rec, name)) == Label(NormStr(Get(rec, "type")), NormStr(Get(rec, "subtype")))
  {
    FlatField(rec, name, "type");
    FlatField(rec, name, "subtype");
    if Get(rec, "type").JStr? { CollapseIdempotent(Get(rec, "type").s); }
    if Get(rec, "subtype").JStr? { CollapseIdempotent(Get(rec, "subtype").s); }
    assert Flat(rec, name) != [] by { FlatName(rec, name); }
  }

  /** The catalog `_load` keeps. */
  datatype Store = Store(mtime: Option<real>, lastUpdated: Option<string>, byName: map<string, Obj>, count: nat)

  const EmptyStore := Store(None, None, map[], 0)

  /** The `items` list of a decoded document; anything else reads as none. */
  function DocItems(data: Json): seq<Json> {
    var items := if data.JObj? then Or(Get(data.members, "items"), JList([])) else JList([]);
    if items.JList? then items.items else []
  }

  /** The catalog built from a decoded document read at time `m`. */
  function Parse(m: real, data: Json): Store {
    var lu := if data.JObj? then NormStr(Get(data.members, "last_updated")) else [];
    var items := DocItems(data);
    Store(Some(m), if lu != [] then Some(lu) else None, ByNameUpTo(items, |items|), CountUpTo(items, |items|))
  }

  /** `_load(force)` given what the file looks like now. */
  function LoadSpec(s: Store, force: bool, obs: Observed): (r: Store)
    ensures obs.Absent? ==> r == EmptyStore
    ensures obs.Present? && !force && s.mtime == Some(obs.mtime) ==> r == s
    ensures obs.Present? && (force || s.mtime != Some(obs.mtime)) && obs.content.None? ==> r == EmptyStore
  {
    match obs
    case Absent => EmptyStore
    case Present(m, content) =>
      if !force && s.mtime == Some(m) then s
      else
        match content
        case None => EmptyStore
        case Some(doc) => Parse(m, doc)
  }

  /** `get(name)` after its reload: nothing for a blank key. */
  function Lookup(s: Store, name: Json): (r: Option<Obj>)
    ensures Key(name) == [] ==> r.None?
    ensures r.Some? <==> Key(name) != [] && Key(name) in s.byName
    ensures r.Some? ==> r.value == s.byName[Key(name)]
  {
    var k := Key(name);
    if k == [] || k !in s.byName then None else Some(s.byName[k])
  }

  /** `get_subtype_label(name)` after its reload. */
  function LabelFor(s: Store, name: Json): string {
    match Lookup(s, name)
    case None => ""
    case Some(rec) => SubtypeLabel(rec)
  }

  /** Looking a record up by any spelling of its name that normalises and
      case-folds the same finds the last record loaded under that name. */
  lemma LookupOfDoc(m: real, data: Json, name: Json, i: nat)
    requires i < |DocItems(data)| && NamedAs(ParseItem(DocItems(data)[i]), Key(name)) && Key(name) != []
    requires forall j :: i < j < |DocItems(data)| ==> !NamedAs(ParseItem(DocItems(data)[j]), Key(name))
    ensures Lookup(Parse(m, data), name) == Some(ParseItem(DocItems(data)[i]).out)
  {
    ByNameLast(DocItems(data), |DocItems(data)|, i, Key(name), ParseItem);
  }

  /** A missing file, or one that cannot be read, leaves an empty catalog. */
  lemma NoDataWithoutFile(s: Store, force: bool, obs: Observed)
    requires obs.Absent? || (obs.Present? && obs.content.None? && (force || s.mtime != Some(obs.mtime)))
    ensures LoadSpec(s, force, obs).count == 0 && LoadSpec(s, force, obs).lastUpdated.None?
  {
  }

  /** `ItemCatalog`: the file path is fixed at construction; each poll's
      view of it is passed in. */
  class Catalog {
    var mtime: Option<real>
    var lastUpdated: Option<string>
    var byName: map<string, Obj>
    var count: nat

    function Snap(): Store
      reads this
    {
      Store(mtime, lastUpdated, byName, count)
    }

    constructor (obs: Observed)
      ensures Snap() == LoadSpec(EmptyStore, true, obs)
    {
      mtime, lastUpdated, byName, count := None, None, map[], 0;
      new;
      Load(true, obs);
    }

    /** The body of the `for rec in items` loop: how one item is read. */
    static method ReadItem(v: Json) returns (p: ItemParse)
      ensures p == ParseItem(v)
    {
      if !v.JObj? {
        return Skipped;
      }
      var name := NormStr(Get(v.members, "name"));
      if name == [] {
        return Skipped;
      }
      p := Named(Key(JStr(name)), Flat(v.members, name));
    }

    /** The `for rec in items` loop of `_load`. */
    static method Collect(items: seq<Json>) returns (byName: map<string, Obj>, count: nat)
      ensures byName == ByNameUpTo(items, |items|) && count == CountUpTo(items, |items|)
    {
      byName, count := map[], 0;
      var i := 0;
      while i < |items|
        invariant 0 <= i <= |items|
        invariant byName == ByNameBy(items, i, ParseItem) && count == CountBy(items, i, ParseItem)
      {
        var p := ReadItem(items[i]);
        FoldStep(items, i, ParseItem, p);
        if p.Named? {
          byName := byName[p.key := p.out];
          count := count + 1;
        }
        i := i + 1;
      }
    }

    /** `_load(force)`. */
    method Load(force: bool, obs: Observed)
      modifies this
      ensures Snap() == LoadSpec(old(Snap()), force, obs)
    {
      if obs.Absent? {
        mtime, lastUpdated, byName, count := None, None, map[], 0;
        return;
      }
      var m := obs.mtime;
      if !force && mtime == Some(m) {
        return;
      }
      if obs.content.None? {
        mtime, lastUpdated, byName, count := None, None, map[], 0;
        return;
      }
      var data := obs.content.value;
      mtime := Some(m);
      lastUpdated := None;
      var items := JList([]);
      if data.JObj? {
        var lu := NormStr(Get(data.members, "last_updated"));
        lastUpdated := if lu != [] then Some(lu) else None;
        items := Or(Get(data.members, "items"), JList([]));
      }
      var bn, c := map[], 0;
      if items.JList? {
        bn, c := Collect(items.items);
      }
      byName, count := bn, c;
    }

    /** `has_data()`. */
    method HasData(obs: Observed) returns (b: bool)
      modifies this
      ensures Snap() == LoadSpec(old(Snap()), false, obs)
      ensures b == (Snap().count > 0)
    {
      Load(false, obs);
      b := count > 0;
    }

    /** `count()`. */
    method Count(obs: Observed) returns (n: int)
      modifies this
      ensures Snap() == LoadSpec(old(Snap()), false, obs)
      ensures n == Snap().count
    {
      Load(false, obs);
      n := count;
    }

    /** `get(name)`. */
    method GetRecord(obs: Observed, name: Json) returns (r: Option<Obj>)
      modifies this
      ensures Snap() == LoadSpec(old(Snap()), false, obs)
      ensures r == Lookup(Snap(), name)
    {
      Load(false, obs);
      var k := Key(name);
      if k == [] {
        return None;
      }
      r := if k in byName then Some(byName[k]) else None;
    }

    /** `get_subtype_label(name)`. */
    method GetSubtypeLabel(obs: Observed, name: Json) returns (r: string)
      modifies this
      ensures Snap() == LoadSpec(old(Snap()), false, obs)
      ensures r == LabelFor(Snap(), name)
    {
      var rec := GetRecord(obs, name);
      if rec.None? || rec.value == [] {
        return "";
      }
      var t := NormStr(Get(rec.value, "type"));
      var st := NormStr(Get(rec.value, "subtype"));
      if t != [] && st != [] {
        return t + " / " + st;
      }
      r := if t != [] then t else st;
    }
  }
}
