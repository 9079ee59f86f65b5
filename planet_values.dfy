/** The planet value estimator: a table of rows keyed by (planet type,
    terraformable), a normalised-name index over the planet types, a small
    alias table for journal class names, and the four-figure selection. */
module PlanetValues {
  import opened PyText
  import opened PyJson
  import opened Sources

  /** `_norm(s)`: the alphanumeric characters, lower-cased. */
  function Norm(s: string): (r: string)
    ensures |r| <= |s|
  {
    if s == [] then [] else (if IsAlnum(s[0]) then [LowerChar(s[0])] else []) + Norm(s[1..])
  }

  /** A normalised name holds only lower-case letters and digits. */
  predicate IsNormal(s: string) {
    forall i :: 0 <= i < |s| ==> IsAlnum(s[i]) && !IsUpperChar(s[i])
  }

  lemma {:induction false} NormIsNormal(s: string)
    ensures IsNormal(Norm(s))
  {
    if s != [] {
      NormIsNormal(s[1..]);
      var h := if IsAlnum(s[0]) then [LowerChar(s[0])] else [];
      assert Norm(s) == h + Norm(s[1..]);
      forall i | 0 <= i < |Norm(s)| ensures IsAlnum(Norm(s)[i]) && !IsUpperChar(Norm(s)[i]) {
        if i >= |h| { assert Norm(s)[i] == Norm(s[1..])[i - |h|]; }
      }
    }
  }

  lemma {:induction false} NormOfNormal(s: string)
    requires IsNormal(s)
    ensures Norm(s) == s
  {
    if s != [] {
      assert IsNormal(s[1..]) by {
        forall i | 0 <= i < |s[1..]| ensures IsAlnum(s[1..][i]) && !IsUpperChar(s[1..][i]) {
          assert s[1..][i] == s[i + 1];
        }
      }
      NormOfNormal(s[1..]);
      assert [s[0]] + s[1..] == s;
    }
  }

  /** `_norm` is idempotent. */
  lemma NormIdempotent(s: string)
    ensures Norm(Norm(s)) == Norm(s)
  {
    NormIsNormal(s);
    NormOfNormal(Norm(s));
  }

  /** `PlanetValueRow`; the four figures are kept as decoded. */
  datatype Row = Row(planetType: string, terraformable: bool, fss: Json, fssDss: Json, fssFd: Json, fssFdDss: Json)

  type RowKey = (string, bool)

  /** The `rows` dict: its keys in insertion order, and the rows by key. */
  datatype Rows = Rows(keys: seq<RowKey>, byKey: map<RowKey, Row>)

  ghost predicate RowsValid(rs: Rows) {
    (forall i, j :: 0 <= i < j < |rs.keys| ==> rs.keys[i] != rs.keys[j])
    && rs.byKey.Keys == set k | k in rs.keys
  }

  /** `rows[key] = row`: an existing key keeps its place. */
  function Insert(rs: Rows, k: RowKey, row: Row): (r: Rows)
    ensures r.byKey == rs.byKey[k := row]
  {
    Rows(if k in rs.byKey then rs.keys else rs.keys + [k], rs.byKey[k := row])
  }

  lemma InsertValid(rs: Rows, k: RowKey, row: Row)
    requires RowsValid(rs)
    ensures RowsValid(Insert(rs, k, row))
  {
  }

  /** The table: the rows and the normalised-type index built in `__init__`. */
  datatype Table = Table(rows: Rows, typeNormMap: map<string, string>)

  /** The index `__init__` builds: for every key in order, `_norm(type) -> type`;
      a later type with the same normalised form wins. */
  function TypeNormUpTo(keys: seq<RowKey>, n: nat): (m: map<string, string>)
    requires n <= |keys|
  {
    if n == 0 then map[] else TypeNormUpTo(keys, n - 1)[Norm(keys[n - 1].0) := keys[n - 1].0]
  }

  /** Every indexed name maps to the planet type of some key. */
  lemma {:induction false} TypeNormIndexesKeys(keys: seq<RowKey>, n: nat)
    requires n <= |keys|
    ensures forall k :: k in TypeNormUpTo(keys, n) ==>
      exists i :: 0 <= i < n && keys[i].0 == TypeNormUpTo(keys, n)[k] && Norm(keys[i].0) == k
  {
    if n > 0 {
      TypeNormIndexesKeys(keys, n - 1);
    }
  }

  /** Every key's type is reachable from its normalised name. */
  lemma {:induction false} TypeNormCoversKeys(keys: seq<RowKey>, n: nat)
    requires n <= |keys|
    ensures forall i :: 0 <= i < n ==> Norm(keys[i].0) in TypeNormUpTo(keys, n)
  {
    if n > 0 {
      TypeNormCoversKeys(keys, n - 1);
    }
  }

  /** `PlanetValueTable.__init__`. */
  method NewTable(rows: Rows) returns (t: Table)
    ensures t == Table(rows, TypeNormUpTo(rows.keys, |rows.keys|))
  {
    var m: map<string, string> := map[];
    var i := 0;
    while i < |rows.keys|
      invariant 0 <= i <= |rows.keys|
      invariant m == TypeNormUpTo(rows.keys, i)
    {
      var pt := rows.keys[i].0;
      m := m[Norm(pt) := pt];
      i := i + 1;
    }
    t := Table(rows, m);
  }

  /** The journal-name fixups, already normalised. Only the two
      high-metal-content names differ from their targets; the other eight
      map a name to itself once normalised. */
  const Aliases: map<string, string> := map[
    "highmetalcontentworld" := "highmetalcontentplanet",
    "highmetalcontentbody" := "highmetalcontentplanet",
    "rockybody" := "rockybody",
    "icybody" := "icybody",
    "metalrichbody" := "metalrichbody",
    "waterworld" := "waterworld",
    "earthlikeworld" := "earthlikeworld",
    "ammoniaworld" := "ammoniaworld",
    "gasgiantwithwaterbasedlife" := "gasgiantwithwaterbasedlife",
    "gasgiantwithammoniabasedlife" := "gasgiantwithammoniabasedlife"
  ]

  /** The lookup `_canonical_type` makes with a normalised key: the index
      first, then the alias table. */
  function TypeForKey(t: Table, key: string): (r: Option<string>)
    ensures r.Some? ==> r.value in t.typeNormMap.Values
  {
    if key in t.typeNormMap then Some(t.typeNormMap[key])
    else if key in Aliases && Aliases[key] != [] && Aliases[key] in t.typeNormMap then
      Some(t.typeNormMap[Aliases[key]])
    else None
  }

  /** `_canonical_type(planet_class)`. */
  function CanonicalType(t: Table, planetClass: string): (r: Option<string>)
    ensures planetClass == [] ==> r.None?
    ensures r.Some? ==> r.value in t.typeNormMap.Values
  {
    if planetClass == [] then None else TypeForKey(t, Norm(planetClass))
  }

  /** `x.isalnum()` for a string: not empty and every character alphanumeric. */
  predicate AllAlnum(x: string) {
    x != [] && forall i :: 0 <= i < |x| ==> IsAlnum(x[i])
  }

  /** What one element of an iterated list or dict contributes to `_norm`. */
  function NormPiece(x: string): string {
    if AllAlnum(x) then Lower(x) else []
  }

  /** `_norm` over the elements of a list: `None` once an element is not a
      string (its `isalnum` raises). */
  function NormItems(items: seq<Json>): (r: Option<string>)
    ensures r.None? <==> exists i :: 0 <= i < |items| && !items[i].JStr?
  {
    if items == [] then Some([])
    else if !items[0].JStr? then None
    else
      match NormItems(items[1..])
      case None => None
      case Some(rest) => Some(NormPiece(items[0].s) + rest)
  }

  /** `_norm` over dict keys, which are always strings. */
  function NormKeys(keys: seq<string>): string {
    if keys == [] then [] else NormPiece(keys[0]) + NormKeys(keys[1..])
  }

  /** `_norm(v)` for a decoded value of any type; `None` when it raises: a
      truthy number or bool is not iterable. */
  function NormJson(v: Json): (r: Option<string>)
    ensures v.JStr? ==> r == Some(Norm(v.s))
    ensures !Truthy(v) ==> r == Some([])
  {
    if !Truthy(v) then Some([])
    else
      match v
      case JStr(s) => Some(Norm(s))
      case JList(items) => NormItems(items)
      case JObj(members) => Some(NormKeys(Keys(Items(members))))
      case _ => None
  }

  /** A single-character string is alphanumeric exactly when its character is. */
  lemma NormPieceChar(c: char)
    ensures NormPiece([c]) == (if IsAlnum(c) then [LowerChar(c)] else [])
  {
  }

  /** A table as `__init__` builds it: the index covers exactly the keys. */
  ghost predicate Built(t: Table) {
    RowsValid(t.rows) && t.typeNormMap == TypeNormUpTo(t.rows.keys, |t.rows.keys|)
  }

  /** The canonical type of a built table is the type of one of its rows. */
  lemma CanonicalTypeHasRow(t: Table, planetClass: string)
    requires Built(t)
    requires CanonicalType(t, planetClass).Some?
    ensures exists tf :: (CanonicalType(t, planetClass).value, tf) in t.rows.byKey
  {
    var keys := t.rows.keys;
    TypeNormIndexesKeys(keys, |keys|);
    var m := t.typeNormMap;
    var key := Norm(planetClass);
    var k := if key in m then key else Aliases[key];
    assert k in m && m[k] == CanonicalType(t, planetClass).value;
    var i :| 0 <= i < |keys| && keys[i].0 == m[k] && Norm(keys[i].0) == k;
    assert keys[i] in set x | x in keys;
    assert keys[i] in t.rows.byKey;
    var tf := keys[i].1;
    assert (CanonicalType(t, planetClass).value, tf) == keys[i];
  }

  /** Class names with the same normalised form resolve to the same type. */
  lemma CanonicalTypeByNorm(t: Table, a: string, b: string)
    requires a != [] && b != [] && Norm(a) == Norm(b)
    ensures CanonicalType(t, a) == CanonicalType(t, b)
  {
  }

  /** A type present in the table under its own normalised name wins over
      any alias. */
  lemma CanonicalTypeDirect(t: Table, planetClass: string)
    requires Built(t)
    requires exists i :: 0 <= i < |t.rows.keys| && Norm(t.rows.keys[i].0) == Norm(planetClass)
    requires planetClass != []
    ensures Norm(planetClass) in t.typeNormMap
    ensures CanonicalType(t, planetClass) == Some(t.typeNormMap[Norm(planetClass)])
  {
    TypeNormCoversKeys(t.rows.keys, |t.rows.keys|);
  }

  /** "High metal content world/body" reach the "High Metal Content Planet"
      rows when no type normalises to the journal name itself. */
  lemma HighMetalAlias(t: Table, planetClass: string)
    requires planetClass != []
    requires Norm(planetClass) == "highmetalcontentworld" || Norm(planetClass) == "highmetalcontentbody"
    requires Norm(planetClass) !in t.typeNormMap
    requires "highmetalcontentplanet" in t.typeNormMap
    ensures CanonicalType(t, planetClass) == Some(t.typeNormMap["highmetalcontentplanet"])
  {
  }

  /** An alias whose target is not indexed gives nothing. */
  lemma AliasNeedsTarget(t: Table, planetClass: string)
    requires planetClass != []
    requires Norm(planetClass) !in t.typeNormMap
    requires Norm(planetClass) !in Aliases || Aliases[Norm(planetClass)] !in t.typeNormMap
    ensures CanonicalType(t, planetClass) == None
  {
  }

  /** The figure for a row: first discovery and mapping pick the column. */
  function Figure(row: Row, mapped: bool, firstDiscovered: bool): (r: Json)
    ensures firstDiscovered && mapped ==> r == row.fssFdDss
    ensures firstDiscovered && !mapped ==> r == row.fssFd
    ensures !firstDiscovered && mapped ==> r == row.fssDss
    ensures !firstDiscovered && !mapped ==> r == row.fss
  {
    if firstDiscovered && mapped then row.fssFdDss
    else if firstDiscovered && !mapped then row.fssFd
    else if !firstDiscovered && mapped then row.fssDss
    else row.fss
  }

  /** The figure of the row for a resolved type, or `JNull`. */
  function Select(t: Table, pt: Option<string>, terraformable: bool, mapped: bool, firstDiscovered: bool): (r: Json)
  {
    match pt
    case None => JNull
    case Some(p) =>
      if p == [] || (p, terraformable) !in t.rows.byKey then JNull
      else Figure(t.rows.byKey[(p, terraformable)], mapped, firstDiscovered)
  }

  /** `estimate(...)`; `None` is `JNull`. */
  function Estimate(t: Table, planetClass: string, terraformable: bool, mapped: bool, firstDiscovered: bool): (r: Json)
    ensures CanonicalType(t, planetClass) == None ==> r == JNull
    ensures (CanonicalType(t, planetClass).Some? && CanonicalType(t, planetClass).value != []
      && (CanonicalType(t, planetClass).value, terraformable) in t.rows.byKey) ==>
      r == Figure(t.rows.byKey[(CanonicalType(t, planetClass).value, terraformable)], mapped, firstDiscovered)
    ensures CanonicalType(t, planetClass).Some? && (CanonicalType(t, planetClass).value, terraformable) !in t.rows.byKey ==> r == JNull
  {
    Select(t, CanonicalType(t, planetClass), terraformable, mapped, firstDiscovered)
  }

  /** `estimate(...)` with a planet class of any decoded type: `None` when
      normalising it raises, else the estimate. */
  function EstimateJson(t: Table, planetClass: Json, terraformable: bool, mapped: bool, firstDiscovered: bool): (r: Option<Json>)
    ensures !Truthy(planetClass) ==> r == Some(JNull)
    ensures r.None? <==> NormJson(planetClass).None?
  {
    if !Truthy(planetClass) then Some(JNull)
    else
      match NormJson(planetClass)
      case None => None
      case Some(key) => Some(Select(t, TypeForKey(t, key), terraformable, mapped, firstDiscovered))
  }

  /** For a string planet class the general estimate is the string one. */
  lemma EstimateJsonStr(t: Table, planetClass: string, terraformable: bool, mapped: bool, firstDiscovered: bool)
    ensures EstimateJson(t, JStr(planetClass), terraformable, mapped, firstDiscovered)
      == Some(Estimate(t, planetClass, terraformable, mapped, firstDiscovered))
  {
  }

  /** A truthy number or bool planet class makes the estimate raise. */
  lemma EstimateJsonNumberRaises(t: Table, planetClass: Json, terraformable: bool, mapped: bool, firstDiscovered: bool)
    requires Truthy(planetClass) && (planetClass.JInt? || planetClass.JReal? || planetClass.JBool?)
    ensures EstimateJson(t, planetClass, terraformable, mapped, firstDiscovered).None?
  {
  }

  /** One entry of `rows_in`: `.get` on a non-dict raises; a row without a
      string planet_type and a bool terraformable is skipped. */
  datatype RowParse = RowRaises | RowSkipped | RowKept(row: Row)

  function ParseRow(r: Json): RowParse {
    if !r.JObj? then RowRaises
    else
      var pt := Get(r.members, "planet_type");
      var tf := Get(r.members, "terraformable");
      if !pt.JStr? || !tf.JBool? then RowSkipped
      else
        var v := Or(Get(r.members, "values"), JObj([]));
        if !v.JObj? then RowRaises
        else
          var vs := v.members;
          RowKept(Row(pt.s, tf.b,
            GetOr(vs, "fss", Get(r.members, "fss")),
            GetOr(vs, "fss_dss", Get(r.members, "fss_dss")),
            GetOr(vs, "fss_fd", Get(r.members, "fss_fd")),
            GetOr(vs, "fss_fd_dss", Get(r.members, "fss_fd_dss"))))
  }

  /** A kept row carries the entry's own planet type and terraformable flag;
      an entry without both is skipped, and a non-dict raises. */
  lemma ParseRowCases(r: Json)
    ensures var p := ParseRow(r);
      (p.RowKept? ==> (r.JObj? && Get(r.members, "planet_type") == JStr(p.row.planetType)
                       && Get(r.members, "terraformable") == JBool(p.row.terraformable)))
      && (r.JObj? && (!Get(r.members, "planet_type").JStr? || !Get(r.members, "terraformable").JBool?) ==> p == RowSkipped)
      && (!r.JObj? ==> p == RowRaises)
  {
  }

  /* The collection is a fold over the entries, parameterised by how one
     entry is read, so that its laws hold for any reading. */

  /** The rows collected from the first `n` entries; None once one raised. */
  function CollectBy(items: seq<Json>, n: nat, parse: Json -> RowParse): (r: Option<Rows>)
    requires n <= |items|
  {
    if n == 0 then Some(Rows([], map[]))
    else
      match CollectBy(items, n - 1, parse)
      case None => None
      case Some(rs) =>
        match parse(items[n - 1])
        case RowRaises => None
        case RowSkipped => Some(rs)
        case RowKept(row) => Some(Insert(rs, (row.planetType, row.terraformable), row))
  }

  function CollectUpTo(items: seq<Json>, n: nat): Option<Rows>
    requires n <= |items|
  {
    CollectBy(items, n, ParseRow)
  }

  /** One more entry: a raise fails the collection, a skip keeps it, a kept
      row is inserted. */
  lemma CollectStep(items: seq<Json>, n: nat, parse: Json -> RowParse, p: RowParse)
    requires n < |items| && p == parse(items[n])
    ensures CollectBy(items, n + 1, parse) ==
      if CollectBy(items, n, parse).None? || p.RowRaises? then None
      else if p.RowSkipped? then CollectBy(items, n, parse)
      else Some(Insert(CollectBy(items, n, parse).value, (p.row.planetType, p.row.terraformable), p.row))
  {
  }

  /** Collected rows keep distinct keys, one per stored row. */
  lemma {:induction false} CollectValid(items: seq<Json>, n: nat, parse: Json -> RowParse)
    requires n <= |items|
    requires CollectBy(items, n, parse).Some?
    ensures RowsValid(CollectBy(items, n, parse).value)
  {
    if n > 0 {
      CollectValid(items, n - 1, parse);
      var rs := CollectBy(items, n - 1, parse).value;
      var p := parse(items[n - 1]);
      CollectStep(items, n - 1, parse, p);
      match p
      case RowSkipped =>
      case RowKept(row) => InsertValid(rs, (row.planetType, row.terraformable), row);
    }
  }

  /** A later row with the same (type, terraformable) replaces the earlier one. */
  lemma CollectLaterWins(items: seq<Json>, n: nat)
    requires 0 < n <= |items|
    requires CollectUpTo(items, n).Some?
    requires ParseRow(items[n - 1]).RowKept?
    ensures var row := ParseRow(items[n - 1]).row;
      CollectUpTo(items, n).value.byKey[(row.planetType, row.terraformable)] == row
  {
  }

  /** The rows of one decoded document; None when reading it raises. */
  function DocRows(data: Json): Option<Rows> {
    if !data.JObj? then None
    else
      var rowsIn := Or(Or(Get(data.members, "entries"), Get(data.members, "rows")), JList([]));
      if rowsIn.JList? then CollectUpTo(rowsIn.items, |rowsIn.items|) else None
  }


  /** `load_from_paths`: the first path that yields at least one row wins. */
  function LoadSpec(paths: seq<SourceFile>): (r: Option<Table>)
    ensures r.Some? ==> Built(r.value) && r.value.rows.keys != []
  {
    if paths == [] then None
    else
      var here :=
        if paths[0].Decoded? then DocRows(paths[0].doc) else None;
      if here.Some? && here.value.keys != [] then
        var rs := here.value;
        var items := Or(Or(Get(paths[0].doc.members, "entries"), Get(paths[0].doc.members, "rows")), JList([])).items;
        CollectValid(items, |items|, ParseRow);
        Some(Table(rs, TypeNormUpTo(rs.keys, |rs.keys|)))
      else LoadSpec(paths[1..])
  }

  /** No path with a valid row gives no table. */
  lemma {:induction false} LoadNoRows(paths: seq<SourceFile>)
    requires forall i :: 0 <= i < |paths| ==> !paths[i].Decoded? || DocRows(paths[i].doc).None? || DocRows(paths[i].doc).value.keys == []
    ensures LoadSpec(paths) == None
  {
    if paths != [] {
      LoadNoRows(paths[1..]);
    }
  }

  /** The body of the `for r in rows_in` loop: how one entry is read. */
  method ReadRow(r: Json) returns (p: RowParse)
    ensures p == ParseRow(r)
  {
    if !r.JObj? {
      return RowRaises;
    }
    var pt := Get(r.members, "planet_type");
    var tf := Get(r.members, "terraformable");
    if !pt.JStr? || !tf.JBool? {
      return RowSkipped;
    }
    var v := Or(Get(r.members, "values"), JObj([]));
    if !v.JObj? {
      return RowRaises;
    }
    p := RowKept(Row(pt.s, tf.b,
      GetOr(v.members, "fss", Get(r.members, "fss")),
      GetOr(v.members, "fss_dss", Get(r.members, "fss_dss")),
      GetOr(v.members, "fss_fd", Get(r.members, "fss_fd")),
      GetOr(v.members, "fss_fd_dss", Get(r.members, "fss_fd_dss"))));
  }

  /** The rows loop of `load_from_paths` over one document's entries. */
  method CollectRows(items: seq<Json>) returns (r: Option<Rows>)
    ensures r == CollectUpTo(items, |items|)
  {
    var rs := Rows([], map[]);
    var i := 0;
    while i < |items|
      invariant 0 <= i <= |items|
      invariant CollectBy(items, i, ParseRow) == Some(rs)
    {
      var p := ReadRow(items[i]);
      CollectStep(items, i, ParseRow, p);
      if p.RowRaises? {
        CollectRaisedStays(items, i + 1, |items|, ParseRow);
        return None;
      } else if p.RowKept? {
        rs := Insert(rs, (p.row.planetType, p.row.terraformable), p.row);
      }
      i := i + 1;
    }
    r := Some(rs);
  }

  /** Once an entry raised, the collection stays failed. */
  lemma {:induction false} CollectRaisedStays(items: seq<Json>, n: nat, m: nat, parse: Json -> RowParse)
    requires 0 < n <= m <= |items|
    requires CollectBy(items, n, parse) == None
    ensures CollectBy(items, m, parse) == None
    decreases m - n
  {
    if m > n {
      CollectRaisedStays(items, n, m - 1, parse);
      CollectStep(items, m - 1, parse, parse(items[m - 1]));
    }
  }

  /** `PlanetValueTable.load_from_paths`. */
  method LoadFromPaths(paths: seq<SourceFile>) returns (t: Option<Table>)
    ensures t == LoadSpec(paths)
  {
    var i := 0;
    while i < |paths|
      invariant 0 <= i <= |paths|
      invariant LoadSpec(paths) == LoadSpec(paths[i..])
    {
      assert paths[i..][1..] == paths[i + 1..];
      var p := paths[i];
      if p.Decoded? && p.doc.JObj? {
        var rowsIn := Or(Or(Get(p.doc.members, "entries"), Get(p.doc.members, "rows")), JList([]));
        if rowsIn.JList? {
          var rs := CollectRows(rowsIn.items);
          if rs.Some? && rs.value.keys != [] {
            var table := NewTable(rs.value);
            return Some(table);
          }
        }
      }
      i := i + 1;
    }
    t := None;
  }
}
