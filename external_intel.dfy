/** The offline point-of-interest store: records by system name (matched
    case-insensitively) and by system address, re-read when the file's
    modification time changes. */
module ExternalIntel {
  import opened PyText
  import opened PyJson
  import opened Sources

  /** `_k(system_name)`: trimmed and lower-cased. */
  function Key(systemName: string): string {
    Lower(Strip(systemName))
  }

  /** One member of the `systems` object folded into the normalised map
      (`key` is the normalisation): blank keys are dropped, and a list
      meeting a list under the same normalised key is extended; any other
      value replaces. */
  function MergeStep(norm: map<string, Json>, nk: string, v: Json): (r: map<string, Json>)
    ensures nk == [] ==> r == norm
  {
    if nk == [] then norm
    else if nk in norm && norm[nk].JList? && v.JList? then norm[nk := JList(norm[nk].items + v.items)]
    else norm[nk := v]
  }

  function MergeBy(items: Obj, n: nat, key: string -> string): map<string, Json>
    requires n <= |items|
  {
    if n == 0 then map[] else MergeStep(MergeBy(items, n - 1, key), key(items[n - 1].key), items[n - 1].val)
  }

  /** The systems loop of `_load` over the first `n` members. */
  function MergeUpTo(items: Obj, n: nat): map<string, Json>
    requires n <= |items|
  {
    MergeBy(items, n, Key)
  }

  /** The list entries of every member whose key normalises to `nk`, in order. */
  function ListsBy(items: Obj, n: nat, nk: string, key: string -> string): seq<Json>
    requires n <= |items|
  {
    if n == 0 then []
    else
      var m := items[n - 1];
      ListsBy(items, n - 1, nk, key) + (if key(m.key) == nk && m.val.JList? then m.val.items else [])
  }

  function ListsFor(items: Obj, n: nat, nk: string): seq<Json>
    requires n <= |items|
  {
    ListsBy(items, n, nk, Key)
  }

  predicate AllListsBy(items: Obj, n: nat, nk: string, key: string -> string)
    requires n <= |items|
  {
    forall i :: 0 <= i < n && key(items[i].key) == nk ==> items[i].val.JList?
  }

  /** A normalised key is present exactly when some non-blank key
      normalises to it. */
  lemma {:induction false} MergeByHas(items: Obj, n: nat, nk: string, key: string -> string)
    requires n <= |items|
    ensures nk in MergeBy(items, n, key) <==> nk != [] && exists i :: 0 <= i < n && key(items[i].key) == nk
  {
    if n > 0 {
      MergeByHas(items, n - 1, nk, key);
    }
  }

  /** A key that ends up absent collected no list entries. */
  lemma {:induction false} MergeByAbsent(items: Obj, n: nat, nk: string, key: string -> string)
    requires n <= |items| && nk != []
    requires nk !in MergeBy(items, n, key)
    ensures ListsBy(items, n, nk, key) == []
  {
    if n > 0 {
      MergeByAbsent(items, n - 1, nk, key);
    }
  }

  /** When every value under a normalised key is a list, the key holds
      their concatenation in document order. */
  lemma {:induction false} MergeByLists(items: Obj, n: nat, nk: string, key: string -> string)
    requires n <= |items| && nk != []
    requires AllListsBy(items, n, nk, key)
    requires nk in MergeBy(items, n, key)
    ensures MergeBy(items, n, key)[nk] == JList(ListsBy(items, n, nk, key))
  {
    if n > 0 {
      if nk in MergeBy(items, n - 1, key) {
        MergeByLists(items, n - 1, nk, key);
      } else {
        MergeByAbsent(items, n - 1, nk, key);
      }
    }
  }

  lemma MergeHas(items: Obj, nk: string)
    ensures nk in MergeUpTo(items, |items|) <==> nk != [] && exists i :: 0 <= i < |items| && Key(items[i].key) == nk
  {
    MergeByHas(items, |items|, nk, Key);
  }

  /** Values under keys that collide after normalisation are concatenated
      in document order, when they are all lists. */
  lemma MergeLists(items: Obj, nk: string)
    requires nk != [] && AllListsBy(items, |items|, nk, Key)
    ensures nk in MergeUpTo(items, |items|) ==> MergeUpTo(items, |items|)[nk] == JList(ListsFor(items, |items|, nk))
    ensures nk !in MergeUpTo(items, |items|) ==> ListsFor(items, |items|, nk) == []
  {
    if nk in MergeUpTo(items, |items|) {
      MergeByLists(items, |items|, nk, Key);
    } else {
      MergeByAbsent(items, |items|, nk, Key);
    }
  }

  /** The tables `_load` keeps. */
  datatype Tables = Tables(systems: map<string, Json>, addresses: Obj)

  const NoTables := Tables(map[], [])

  /** The tables of a decoded document. */
  function Parse(data: Json): (t: Tables)
    ensures !data.JObj? ==> t == NoTables
  {
    var systems := if data.JObj? then Or(Get(data.members, "systems"), JObj([])) else JObj([]);
    var addrs := if data.JObj? then Or(Get(data.members, "system_addresses"), JObj([])) else JObj([]);
    var norm := if systems.JObj? then MergeUpTo(Items(systems.members), |Items(systems.members)|) else map[];
    Tables(norm, if addrs.JObj? then addrs.members else [])
  }

  /** The store: the cached modification time and the tables. */
  datatype Store = Store(mtime: Option<real>, tables: Tables)

  /** `_load(force)` given what the file looks like now. */
  function LoadSpec(s: Store, force: bool, obs: Observed): (r: Store)
    ensures obs.Absent? ==> r == Store(None, NoTables)
    ensures obs.Present? && !force && s.mtime == Some(obs.mtime) ==> r == s
    ensures obs.Present? && (force || s.mtime != Some(obs.mtime)) ==>
      (obs.content.None? ==> r == Store(None, NoTables))
      && (obs.content.Some? ==> r == Store(Some(obs.mtime), Parse(obs.content.value)))
  {
    match obs
    case Absent => Store(None, NoTables)
    case Present(m, content) =>
      if !force && s.mtime == Some(m) then s
      else
        match content
        case None => Store(None, NoTables)
        case Some(doc) => Store(Some(m), Parse(doc))
  }

  /** A load that succeeded and is repeated on an unchanged file changes nothing. */
  lemma LoadSettles(s: Store, force: bool, m: real, doc: Json)
    ensures var s1 := LoadSpec(s, force, Present(m, Some(doc)));
      LoadSpec(s1, false, Present(m, Some(doc))) == s1
  {
  }

  /** A non-forced reload repeated on the same observation changes nothing,
      whether the file is missing, unreadable or decoded. */
  lemma LoadIdempotent(s: Store, obs: Observed)
    ensures LoadSpec(LoadSpec(s, false, obs), false, obs) == LoadSpec(s, false, obs)
  {
  }

  /** The dict entries stored for one system address: `str()` of the int is
      the key, so `True` looks up "True". */
  function AddressPois(t: Tables, systemAddress: Json): seq<Json> {
    if IsInt(systemAddress) then
      var recs := Or(Get(t.addresses, Show(systemAddress)), JList([]));
      if recs.JList? then ObjItems(recs.items) else []
    else []
  }

  /** The dict entries stored under a system name. */
  function NamePois(t: Tables, systemName: string): seq<Json> {
    var key := Key(systemName);
    var recs := Or(if key in t.systems then t.systems[key] else JNull, JList([]));
    if recs.JList? then ObjItems(recs.items) else []
  }

  /** `get_pois(system_name, system_address)` after its reload. */
  function Pois(t: Tables, systemName: string, systemAddress: Json): seq<Json> {
    AddressPois(t, systemAddress) + NamePois(t, systemName)
  }

  /** `get_pois` for a name of any type: `(name or "")` makes a falsy name
      the empty string, and a truthy non-string fails inside `_k`, which the
      guarded block swallows after the address matches are in. */
  function PoisOf(t: Tables, systemName: Json, systemAddress: Json): seq<Json> {
    if systemName.JStr? then Pois(t, systemName.s, systemAddress)
    else if Truthy(systemName) then AddressPois(t, systemAddress)
    else Pois(t, "", systemAddress)
  }

  lemma ConcatParts(a: seq<Json>, b: seq<Json>)
    requires forall i :: 0 <= i < |a| ==> a[i].JObj?
    requires forall i :: 0 <= i < |b| ==> b[i].JObj?
    ensures (a + b)[..|a|] == a && (a + b)[|a|..] == b
    ensures forall i :: 0 <= i < |a + b| ==> (a + b)[i].JObj?
    ensures a == [] ==> a + b == b
  {
    forall i | 0 <= i < |a + b| ensures (a + b)[i].JObj? {
      if i >= |a| { assert (a + b)[i] == b[i - |a|]; }
    }
  }

  /** Address matches come first, and only an int address has any; every
      record returned is a dict. */
  lemma PoisOrder(t: Tables, systemName: string, systemAddress: Json)
    ensures var r := Pois(t, systemName, systemAddress);
      |r| >= |AddressPois(t, systemAddress)|
      && r[..|AddressPois(t, systemAddress)|] == AddressPois(t, systemAddress)
      && r[|AddressPois(t, systemAddress)|..] == NamePois(t, systemName)
    ensures !IsInt(systemAddress) ==> Pois(t, systemName, systemAddress) == NamePois(t, systemName)
    ensures forall i :: 0 <= i < |Pois(t, systemName, systemAddress)| ==> Pois(t, systemName, systemAddress)[i].JObj?
  {
    ConcatParts(AddressPois(t, systemAddress), NamePois(t, systemName));
  }

  /** Names that agree after trimming and lower-casing give the same records. */
  lemma PoisByKey(t: Tables, a: string, b: string, systemAddress: Json)
    requires Key(a) == Key(b)
    ensures Pois(t, a, systemAddress) == Pois(t, b, systemAddress)
  {
  }

  /** Name matches of a loaded document: the lists under every key that
      normalises to the name, concatenated, dict entries only. */
  lemma NamePoisOfDoc(data: Json, systemName: string)
    requires data.JObj?
    requires var systems := Or(Get(data.members, "systems"), JObj([]));
      systems.JObj? && Key(systemName) != []
      && AllListsBy(Items(systems.members), |Items(systems.members)|, Key(systemName), Key)
    ensures var items := Items(Or(Get(data.members, "systems"), JObj([])).members);
      NamePois(Parse(data), systemName) == ObjItems(ListsFor(items, |items|, Key(systemName)))
  {
    var items := Items(Or(Get(data.members, "systems"), JObj([])).members);
    var nk := Key(systemName);
    MergeLists(items, nk);
    if nk in MergeUpTo(items, |items|) {
      var l := ListsFor(items, |items|, nk);
      if l == [] {
        assert !Truthy(JList(l));
      }
    }
  }

  /** `ExternalIntel`: the file path is fixed at construction; each poll's
      view of it is passed in. */
  class Intel {
    var mtime: Option<real>
    var systems: map<string, Json>
    var addresses: Obj

    function Snap(): Store
      reads this
    {
      Store(mtime, Tables(systems, addresses))
    }

    /** `__init__` loads with `force=True`. */
    constructor (obs: Observed)
      ensures Snap() == LoadSpec(Store(None, NoTables), true, obs)
    {
      mtime, systems, addresses := None, map[], [];
      new;
      Load(true, obs);
    }

    /** The systems loop of `_load`. */
    static method MergeSystems(items: Obj) returns (norm: map<string, Json>)
      ensures norm == MergeUpTo(items, |items|)
    {
      norm := map[];
      var i := 0;
      while i < |items|
        invariant 0 <= i <= |items|
        invariant norm == MergeBy(items, i, Key)
      {
        var k, v := items[i].key, items[i].val;
        var nk := Key(k);
        if nk != [] {
          if nk in norm && norm[nk].JList? && v.JList? {
            norm := norm[nk := JList(norm[nk].items + v.items)];
          } else {
            norm := norm[nk := v];
          }
        }
        i := i + 1;
      }
    }

    /** `_load(force)`. */
    method Load(force: bool, obs: Observed)
      modifies this
      ensures Snap() == LoadSpec(old(Snap()), force, obs)
    {
      if obs.Absent? {
        systems, addresses, mtime := map[], [], None;
        return;
      }
      var m := obs.mtime;
      if !force && mtime == Some(m) {
        return;
      }
      if obs.content.None? {
        systems, addresses, mtime := map[], [], None;
        return;
      }
      var data := obs.content.value;
      mtime := Some(m);
      var sys := JObj([]);
      var addrs := JObj([]);
      if data.JObj? {
        sys := Or(Get(data.members, "systems"), JObj([]));
        addrs := Or(Get(data.members, "system_addresses"), JObj([]));
      }
      var norm := map[];
      if sys.JObj? {
        norm := MergeSystems(Items(sys.members));
      }
      systems := norm;
      addresses := if addrs.JObj? then addrs.members else [];
    }

    /** `get_pois(system_name, system_address)`. */
    method GetPois(obs: Observed, systemName: Json, systemAddress: Json) returns (out: seq<Json>)
      modifies this
      ensures Snap() == LoadSpec(old(Snap()), false, obs)
      ensures out == PoisOf(Snap().tables, systemName, systemAddress)
    {
      Load(false, obs);
      ghost var t := Tables(systems, addresses);
      out := [];
      if IsInt(systemAddress) {
        var recs := Or(Get(addresses, Show(systemAddress)), JList([]));
        if recs.JList? {
          out := out + ObjItems(recs.items);
        }
      }
      assert out == AddressPois(t, systemAddress);
      if systemName.JStr? || !Truthy(systemName) {
        var name := if systemName.JStr? then systemName.s else "";
        var key := Key(name);
        var recs2 := Or(if key in systems then systems[key] else JNull, JList([]));
        assert NamePois(t, name) == if recs2.JList? then ObjItems(recs2.items) else [];
        if recs2.JList? {
          out := out + ObjItems(recs2.items);
        }
      }
    }
  }
}
