/** Decoded JSON values as the Python code sees them (`dict`, `list`, `str`,
    `int`, `float`, `bool`, `None`), with the Python idioms the program
    applies to them: truthiness, `x or y`, `dict.get`, item assignment,
    `dict.update` and `str()`. */
module PyJson {
  import opened PyText

  datatype Json =
    | JNull
    | JBool(b: bool)
    | JInt(i: int)
    | JReal(r: real)
    | JStr(s: string)
    | JList(items: seq<Json>)
    | JObj(members: Obj)

  datatype Member = Member(key: string, val: Json)

  /** A `dict` with string keys, in insertion order. */
  type Obj = seq<Member>

  datatype Option<T> = None | Some(value: T)

  /** Python truthiness. */
  predicate Truthy(v: Json) {
    match v
    case JNull => false
    case JBool(b) => b
    case JInt(i) => i != 0
    case JReal(r) => r != 0.0
    case JStr(s) => s != []
    case JList(items) => items != []
    case JObj(ms) => ms != []
  }

  /** Python's `a or b`. */
  function Or(a: Json, b: Json): (r: Json)
    ensures Truthy(a) ==> r == a
    ensures !Truthy(a) ==> r == b
  {
    if Truthy(a) then a else b
  }

  /** `isinstance(v, int)`: Python's `bool` is a subclass of `int`. */
  predicate IsInt(v: Json) {
    v.JInt? || v.JBool?
  }

  /** The integer an `int` instance stands for (`True` is 1). */
  function IntOf(v: Json): int
    requires IsInt(v)
  {
    if v.JInt? then v.i else if v.b then 1 else 0
  }

  /** `x if isinstance(x, int) else previous`: a field that only an int
      may overwrite. */
  function IntOr(v: Json, previous: Json): (r: Json)
    ensures IsInt(r) || r == previous
    ensures IsInt(v) ==> r == v
  {
    if IsInt(v) then v else previous
  }

  /** `isinstance(v, (int, float))` */
  predicate IsNumber(v: Json) {
    IsInt(v) || v.JReal?
  }

  /** The value of a number (`True` is 1). */
  function NumVal(v: Json): real
    requires IsNumber(v)
  {
    if v.JReal? then v.r else IntOf(v) as real
  }

  /** Python's `a == b`: numbers of any kind compare by value; other values
      compare as they are. */
  predicate PyEq(a: Json, b: Json) {
    if IsNumber(a) && IsNumber(b) then NumVal(a) == NumVal(b) else a == b
  }

  /** `v in (None, "", 0)`; Python's `==` also makes `False` and `0.0` members. */
  predicate Emptyish(v: Json) {
    v == JNull || v == JStr("") || v == JInt(0) || v == JBool(false) || v == JReal(0.0)
  }

  /** `isinstance(v, str) and v.strip()` */
  predicate IsNonBlankStr(v: Json) {
    v.JStr? && Strip(v.s) != []
  }

  function Keys(o: Obj): (r: seq<string>)
    ensures |r| == |o|
    ensures forall i :: 0 <= i < |o| ==> r[i] == o[i].key
  {
    if o == [] then [] else [o[0].key] + Keys(o[1..])
  }

  /** `k in d` */
  predicate Has(o: Obj, k: string) {
    exists i | 0 <= i < |o| :: o[i].key == k
  }

  /** Index of the member with key `k`; the last one wins, as when Python
      builds a dict from members in order. */
  function IndexOf(o: Obj, k: string): (i: nat)
    requires Has(o, k)
    ensures i < |o| && o[i].key == k
  {
    var n := |o| - 1;
    if o[n].key == k then n
    else
      assert Has(o[..n], k) by {
        var j :| 0 <= j < |o| && o[j].key == k;
        assert o[..n][j].key == k;
      }
      IndexOf(o[..n], k)
  }

  /** No member after the one `IndexOf` finds has its key. */
  lemma {:induction false} IndexOfLast(o: Obj, k: string)
    requires Has(o, k)
    ensures forall j :: IndexOf(o, k) < j < |o| ==> o[j].key != k
    decreases |o|
  {
    var n := |o| - 1;
    if o[n].key != k {
      assert Has(o[..n], k) by {
        var j :| 0 <= j < |o| && o[j].key == k;
        assert o[..n][j].key == k;
      }
      IndexOfLast(o[..n], k);
    }
  }

  /** `d.get(k, default)` */
  function GetOr(o: Obj, k: string, default: Json): Json {
    if Has(o, k) then o[IndexOf(o, k)].val else default
  }

  /** `d.get(k)` */
  function Get(o: Obj, k: string): Json {
    GetOr(o, k, JNull)
  }

  /** `d.items()` of the first `n` members of a decoded object: each key
      once, at its first position, with the value `Get` reads (the last). */
  function ItemsUpTo(o: Obj, n: nat): (r: Obj)
    requires n <= |o|
    ensures |r| <= n
  {
    if n == 0 then []
    else
      var k := o[n - 1].key;
      ItemsUpTo(o, n - 1) + (if Has(o[..n - 1], k) then [] else [Member(k, Get(o, k))])
  }

  /** `d.items()`: the members a decoded object holds. */
  function Items(o: Obj): Obj {
    ItemsUpTo(o, |o|)
  }

  lemma HasConcat(a: Obj, b: Obj, k: string)
    ensures Has(a + b, k) <==> Has(a, k) || Has(b, k)
  {
    if Has(a + b, k) {
      var j :| 0 <= j < |a + b| && (a + b)[j].key == k;
      if j >= |a| { assert b[j - |a|].key == k; }
    }
    if Has(a, k) {
      var j :| 0 <= j < |a| && a[j].key == k;
      assert (a + b)[j].key == k;
    }
    if Has(b, k) {
      var j :| 0 <= j < |b| && b[j].key == k;
      assert (a + b)[|a| + j].key == k;
    }
  }

  /** `d.items()` holds exactly the keys of the object. */
  lemma {:induction false} ItemsUpToHas(o: Obj, n: nat, k: string)
    requires n <= |o|
    ensures Has(ItemsUpTo(o, n), k) <==> Has(o[..n], k)
  {
    if n > 0 {
      ItemsUpToHas(o, n - 1, k);
      var key := o[n - 1].key;
      var tail: Obj := if Has(o[..n - 1], key) then [] else [Member(key, Get(o, key))];
      HasConcat(ItemsUpTo(o, n - 1), tail, k);
      assert o[..n] == o[..n - 1] + [o[n - 1]];
      HasConcat(o[..n - 1], [o[n - 1]], k);
      assert Has([o[n - 1]], k) <==> key == k by { assert [o[n - 1]][0] == o[n - 1]; }
      assert Has(tail, k) ==> key == k by {
        if Has(tail, k) { assert tail[0].key == key; }
      }
      if key == k && !Has(o[..n - 1], key) {
        assert tail[0].key == k;
      }
    }
  }

  /** Each member of `d.items()` carries the value `Get` reads. */
  lemma {:induction false} ItemsUpToValues(o: Obj, n: nat)
    requires n <= |o|
    ensures forall i :: 0 <= i < |ItemsUpTo(o, n)| ==> ItemsUpTo(o, n)[i].val == Get(o, ItemsUpTo(o, n)[i].key)
  {
    if n > 0 {
      ItemsUpToValues(o, n - 1);
    }
  }

  /** Each member of `d.items()` is a member of the decoded object: the
      last one with its key. */
  lemma {:induction false} ItemsUpToMembers(o: Obj, n: nat)
    requires n <= |o|
    ensures forall m :: m in ItemsUpTo(o, n) ==> m in o
  {
    if n > 0 {
      ItemsUpToMembers(o, n - 1);
      var k := o[n - 1].key;
      assert Has(o, k);
      var i := IndexOf(o, k);
      assert Member(k, Get(o, k)) == o[i];
    }
  }

  /** No key appears twice in `d.items()`. */
  lemma {:induction false} ItemsUpToDistinct(o: Obj, n: nat)
    requires n <= |o|
    ensures forall i, j :: 0 <= i < j < |ItemsUpTo(o, n)| ==> ItemsUpTo(o, n)[i].key != ItemsUpTo(o, n)[j].key
  {
    if n > 0 {
      ItemsUpToDistinct(o, n - 1);
      var front := ItemsUpTo(o, n - 1);
      var key := o[n - 1].key;
      if !Has(o[..n - 1], key) {
        ItemsUpToHas(o, n - 1, key);
        forall i | 0 <= i < |front| ensures front[i].key != key {
          if front[i].key == key { assert Has(front, key); }
        }
      }
    }
  }

  lemma ItemsExact(o: Obj)
    ensures forall k :: Has(Items(o), k) <==> Has(o, k)
    ensures forall i :: 0 <= i < |Items(o)| ==> Items(o)[i].val == Get(o, Items(o)[i].key)
    ensures forall i, j :: 0 <= i < j < |Items(o)| ==> Items(o)[i].key != Items(o)[j].key
  {
    assert o[..|o|] == o;
    forall k ensures Has(Items(o), k) <==> Has(o, k) {
      ItemsUpToHas(o, |o|, k);
    }
    ItemsUpToValues(o, |o|);
    ItemsUpToDistinct(o, |o|);
  }

  /** A member appended with a key `k2 != k` leaves `k` as it was. */
  lemma GetAppendOther(o: Obj, m: Member, k: string)
    requires m.key != k
    ensures Has(o + [m], k) <==> Has(o, k)
    ensures Get(o + [m], k) == Get(o, k)
  {
    var r := o + [m];
    if Has(o, k) { var j := IndexOf(o, k); assert r[j].key == k; }
    if Has(r, k) {
      assert r[..|o|] == o;
    }
  }

  /** Members appended later win: an object followed by `b` reads `b`'s
      value for the keys `b` holds and its own value for the others. */
  lemma {:induction false} GetConcat(a: Obj, b: Obj, k: string)
    ensures Get(a + b, k) == if Has(b, k) then Get(b, k) else Get(a, k)
    decreases |b|
  {
    if b == [] {
      assert a + b == a;
    } else {
      var n := |b| - 1;
      assert a + b == (a + b[..n]) + [b[n]];
      assert b == b[..n] + [b[n]];
      if b[n].key == k {
        assert (a + b)[|a + b| - 1].key == k;
        assert b[n].key == k;
      } else {
        GetConcat(a, b[..n], k);
        GetAppendOther(a + b[..n], b[n], k);
        GetAppendOther(b[..n], b[n], k);
      }
    }
  }

  /** `d[k] = v`: an existing key keeps its place, a new one goes last. */
  function Put(o: Obj, k: string, v: Json): (r: Obj)
    ensures Get(r, k) == v
    ensures Has(r, k)
    ensures forall k2 :: k2 != k ==> (Has(r, k2) <==> Has(o, k2)) && Get(r, k2) == Get(o, k2)
  {
    if Has(o, k) then
      var i := IndexOf(o, k);
      var r := o[i := Member(k, v)];
      assert forall k2 :: k2 != k ==> (Has(r, k2) <==> Has(o, k2)) by {
        forall k2 | k2 != k ensures Has(r, k2) <==> Has(o, k2) {
          if Has(o, k2) { var j := IndexOf(o, k2); assert r[j].key == k2; }
          if Has(r, k2) { var j := IndexOf(r, k2); assert o[j].key == k2; }
        }
      }
      assert forall k2 :: k2 != k && Has(o, k2) ==> IndexOf(r, k2) == IndexOf(o, k2) by {
        forall k2 | k2 != k && Has(o, k2) ensures IndexOf(r, k2) == IndexOf(o, k2) {
          var a, b := IndexOf(r, k2), IndexOf(o, k2);
          IndexOfLast(r, k2);
          IndexOfLast(o, k2);
          assert r[b].key == k2;
          assert o[a].key == k2;
        }
      }
      assert IndexOf(r, k) == i by {
        assert r[i].key == k;
        assert Has(r, k);
        IndexOfLast(r, k);
        IndexOfLast(o, k);
      }
      r
    else
      var r := o + [Member(k, v)];
      forall k2 | k2 != k ensures (Has(r, k2) <==> Has(o, k2)) && Get(r, k2) == Get(o, k2) {
        GetAppendOther(o, Member(k, v), k2);
      }
      assert r[|o|].key == k;
      r
  }

  /** `d.update(other)`: every member of `other`, in order, assigned into `d`. */
  function Update(o: Obj, other: Obj): (r: Obj)
    ensures forall k :: Has(other, k) ==> Has(r, k) && Get(r, k) == Get(other, k)
    ensures forall k :: !Has(other, k) ==> (Has(r, k) <==> Has(o, k)) && Get(r, k) == Get(o, k)
    decreases |other|
  {
    if other == [] then o
    else
      var n := |other| - 1;
      var front := Update(o, other[..n]);
      assert other == other[..n] + [other[n]];
      forall k | k != other[n].key
        ensures (Has(other, k) <==> Has(other[..n], k)) && Get(other, k) == Get(other[..n], k)
      {
        GetAppendOther(other[..n], other[n], k);
      }
      assert Get(other, other[n].key) == other[n].val;
      Put(front, other[n].key, other[n].val)
  }

  /** Assigning a key twice is assigning it the second value once. */
  lemma PutTwice(o: Obj, k: string, v: Json, w: Json)
    ensures Put(Put(o, k, v), k, w) == Put(o, k, w)
  {
    var r := Put(o, k, v);
    if Has(o, k) {
      var i := IndexOf(o, k);
      IndexOfLast(o, k);
      IndexOfLast(r, k);
      assert r[i].key == k;
      assert IndexOf(r, k) == i;
    } else {
      assert r[|o|].key == k;
      assert IndexOf(r, k) == |o|;
    }
  }

  /** Updating with members the object already holds changes nothing. */
  lemma {:induction false} UpdateSettled(o: Obj, other: Obj)
    requires forall i :: 0 <= i < |other| ==> Has(o, other[i].key) && Get(o, other[i].key) == other[i].val
    ensures Update(o, other) == o
    decreases |other|
  {
    if other != [] {
      var n := |other| - 1;
      UpdateSettled(o, other[..n]);
      PutSame(o, other[n].key);
    }
  }

  /** Assigning a key the value it already has changes nothing. */
  lemma PutSame(o: Obj, k: string)
    requires Has(o, k)
    ensures Put(o, k, Get(o, k)) == o
  {
  }

  /** The member at `i` is the one `Get` reads when no later member has its key. */
  lemma GetAt(o: Obj, i: nat)
    requires i < |o|
    requires forall j :: i < j < |o| ==> o[j].key != o[i].key
    ensures Has(o, o[i].key) && Get(o, o[i].key) == o[i].val
  {
    IndexOfLast(o, o[i].key);
  }

  /** With no key repeated, `Get` reads every member back. */
  lemma GetDistinct(o: Obj)
    requires forall i, j :: 0 <= i < j < |o| ==> o[i].key != o[j].key
    ensures forall i :: 0 <= i < |o| ==> Has(o, o[i].key) && Get(o, o[i].key) == o[i].val
  {
    forall i | 0 <= i < |o| ensures Has(o, o[i].key) && Get(o, o[i].key) == o[i].val {
      GetAt(o, i);
    }
  }

  /** `" ".join(v.split()).strip()` for a string: whitespace runs collapsed
      and the ends trimmed; "" for anything else. */
  function NormStr(v: Json): string {
    if v.JStr? then Collapse(v.s) else []
  }

  /** `[_norm(x) for x in xs[:n] if _norm(x)]`: the normalised, non-empty strings among the first `n` values. */
  function CleanUpTo(xs: seq<Json>, n: nat): (r: seq<string>)
    requires n <= |xs|
  {
    if n == 0 then []
    else CleanUpTo(xs, n - 1) + (if NormStr(xs[n - 1]) != [] then [NormStr(xs[n - 1])] else [])
  }

  /** One more value adds its normalised form when that is non-empty. */
  lemma CleanStep(xs: seq<Json>, n: nat, s: string)
    requires n < |xs| && s == NormStr(xs[n])
    ensures CleanUpTo(xs, n + 1) == CleanUpTo(xs, n) + if s != [] then [s] else []
  {
  }

  /** Every cleaned material is non-empty and already normalised. */
  lemma {:induction false} CleanUpToNormal(xs: seq<Json>, n: nat)
    requires n <= |xs|
    ensures forall i :: 0 <= i < |CleanUpTo(xs, n)| ==> CleanUpTo(xs, n)[i] != [] && NormStr(JStr(CleanUpTo(xs, n)[i])) == CleanUpTo(xs, n)[i]
  {
    if n > 0 {
      CleanUpToNormal(xs, n - 1);
      var prev := CleanUpTo(xs, n - 1);
      var v := NormStr(xs[n - 1]);
      NormStrNormal(xs[n - 1]);
      var c := CleanUpTo(xs, n);
      assert c == prev + (if v != [] then [v] else []);
      forall i | 0 <= i < |c|
        ensures c[i] != [] && NormStr(JStr(c[i])) == c[i]
      {
        if i < |prev| {
          assert c[i] == prev[i];
        } else {
          assert c[i] == v;
        }
      }
    }
  }

  /** A normalised string is its own normal form. */
  lemma NormStrNormal(v: Json)
    ensures NormStr(JStr(NormStr(v))) == NormStr(v)
  {
    if v.JStr? {
      CollapseIdempotent(v.s);
    }
  }

  /** A list of strings as a JSON list's items. */
  function StrJsons(ss: seq<string>): (r: seq<Json>)
    ensures |r| == |ss|
  {
    if ss == [] then [] else [JStr(ss[0])] + StrJsons(ss[1..])
  }

  /** The items `for item in (v or [])` visits when the loop body then
      calls `item.get`: `None` when a truthy non-list makes that raise (a
      string's characters and a dict's keys have no `get`, a number cannot
      be iterated). */
  function RecordLoop(v: Json): (r: Option<seq<Json>>)
    ensures !Truthy(v) ==> r == Some([])
    ensures v.JList? ==> r == Some(v.items)
    ensures r.None? <==> Truthy(v) && !v.JList?
  {
    if !Truthy(v) then Some([])
    else if v.JList? then Some(v.items)
    else None
  }

  /** Python's `int(v)` on a JSON value: `None` for the values it rejects. */
  function PyInt(v: Json): Option<int> {
    match v
    case JInt(i) => Some(i)
    case JBool(b) => Some(if b then 1 else 0)
    case JReal(r) => Some(if r >= 0.0 then r.Floor else -((-r).Floor))
    case JStr(s) => ParseInt(Strip(s))
    case _ => None
  }

  /** Digits with single underscores between them, as `int()` accepts them. */
  predicate IsDigitRun(s: string) {
    s != [] && IsDigit(s[0]) && IsDigit(s[|s| - 1])
    && (forall i :: 0 <= i < |s| ==> IsDigit(s[i]) || s[i] == '_')
    && (forall i :: 0 <= i < |s| - 1 ==> !(s[i] == '_' && s[i + 1] == '_'))
  }

  function DigitsValue(s: string): nat {
    if s == [] then 0
    else if IsDigit(s[|s| - 1]) then DigitsValue(s[..|s| - 1]) * 10 + (s[|s| - 1] as int - '0' as int)
    else DigitsValue(s[..|s| - 1])
  }

  /** `int(s)` of an already stripped string. */
  function ParseInt(s: string): Option<int> {
    if s != [] && (s[0] == '-' || s[0] == '+') then
      var d: int := DigitsValue(s[1..]);
      if IsDigitRun(s[1..]) then Some(if s[0] == '-' then -d else d)
      else None
    else if IsDigitRun(s) then Some(DigitsValue(s))
    else None
  }

  lemma {:induction false} DigitsValueOfNatToStr(n: nat)
    ensures DigitsValue(NatToStr(n)) == n
    decreases n
  {
    if n >= 10 {
      var d := NatToStr(n / 10) + [DigitChar(n % 10)];
      assert d[..|d| - 1] == NatToStr(n / 10);
      DigitsValueOfNatToStr(n / 10);
    }
  }

  lemma NatToStrDigitRun(n: nat)
    ensures IsDigitRun(NatToStr(n))
  {
    var s := NatToStr(n);
    assert forall i :: 0 <= i < |s| - 1 ==> s[i] != '_' by {
      forall i | 0 <= i < |s| - 1 ensures s[i] != '_' { assert IsDigit(s[i]); }
    }
  }

  /** `int(str(n)) == n` */
  lemma IntStrRoundTrip(n: int)
    ensures ParseInt(IntToStr(n)) == Some(n)
  {
    if n < 0 {
      var d := NatToStr(-n);
      DigitsValueOfNatToStr(-n);
      NatToStrDigitRun(-n);
      assert IntToStr(n) == "-" + d;
      assert IntToStr(n)[1..] == d;
    } else {
      var d := NatToStr(n);
      DigitsValueOfNatToStr(n);
      NatToStrDigitRun(n);
      assert d[0] != '-' && d[0] != '+' by { assert IsDigit(d[0]); }
    }
  }

  function HexDigit(d: int): char
    requires 0 <= d < 16
  {
    if d < 10 then ('0' as int + d) as char else ('a' as int + d - 10) as char
  }

  /** The escaped body of a quoted string, as `repr()` writes it. */
  function EscapeChars(s: string, quote: char): string {
    if s == [] then []
    else
      var c := s[0];
      var e :=
        if c == '\\' then "\\\\"
        else if c == quote then ['\\', quote]
        else if c == '\n' then "\\n"
        else if c == '\t' then "\\t"
        else if c == '\r' then "\\r"
        else if c < ' ' || c == '\U{7f}' then ['\\', 'x', HexDigit(c as int / 16), HexDigit(c as int % 16)]
        else [c];
      e + EscapeChars(s[1..], quote)
  }

  /** `repr()` of a string: single quotes unless the text has a single quote and no double quote. */
  function ReprStr(s: string): string {
    if '\'' in s && '"' !in s then "\"" + EscapeChars(s, '"') + "\""
    else "'" + EscapeChars(s, '\'') + "'"
  }

  /** `str(v)`; a float is shown as `<float>`, since its shortest round-trip
      decimal form is not part of this model. */
  function Show(v: Json): string
    decreases v, 1
  {
    match v
    case JStr(s) => s
    case _ => Repr(v)
  }

  /** `repr(v)` */
  function Repr(v: Json): string
    decreases v, 0
  {
    match v
    case JNull => "None"
    case JBool(b) => if b then "True" else "False"
    case JInt(i) => IntToStr(i)
    case JReal(_) => "<float>"
    case JStr(s) => ReprStr(s)
    case JList(items) => "[" + ReprItems(items) + "]"
    case JObj(ms) => ItemsUpToMembers(ms, |ms|); "{" + ReprMembers(ms, Items(ms)) + "}"
  }

  function ReprItems(items: seq<Json>): string
    decreases items
  {
    if items == [] then ""
    else if |items| == 1 then Repr(items[0])
    else Repr(items[0]) + ", " + ReprItems(items[1..])
  }

  /** The members of `str(d)`: the dict's items, each key once, drawn from
      the object's own members `o`. */
  function ReprMembers(o: Obj, ms: Obj): string
    requires forall m :: m in ms ==> m in o
    decreases o, |ms|
  {
    if ms == [] then ""
    else
      assert ms[0] in o;
      var first := ReprStr(ms[0].key) + ": " + Repr(ms[0].val);
      if |ms| == 1 then first else first + ", " + ReprMembers(o, ms[1..])
  }

  /** A document with a repeated key decodes to a dict holding the key once,
      with its last value, and `str()` shows it so. */
  lemma ReprRepeatedKey()
    ensures Repr(JObj([Member("a", JInt(1)), Member("a", JInt(2))])) == "{'a': 2}"
  {
    var o := [Member("a", JInt(1)), Member("a", JInt(2))];
    assert o[..1] == [o[0]];
    assert ItemsUpTo(o, 1) == [Member("a", Get(o, "a"))];
    assert Has(o[..1], "a");
    GetAt(o, 1);
    assert Items(o) == [Member("a", JInt(2))];
  }

  /** The string items of a list, as `[p for p in xs if isinstance(p, str)]`. */
  function StrItems(xs: seq<Json>): (r: seq<string>)
    ensures |r| <= |xs|
    ensures forall s :: s in r ==> JStr(s) in xs
  {
    if xs == [] then []
    else (if xs[0].JStr? then [xs[0].s] else []) + StrItems(xs[1..])
  }

  /** The dict items of a list, as `[r for r in xs if isinstance(r, dict)]`. */
  function ObjItems(xs: seq<Json>): (r: seq<Json>)
    ensures |r| <= |xs|
    ensures forall i :: 0 <= i < |r| ==> r[i].JObj?
  {
    if xs == [] then []
    else (if xs[0].JObj? then [xs[0]] else []) + ObjItems(xs[1..])
  }

  /** A list of dicts passes the filter unchanged. */
  lemma {:induction false} ObjItemsOfObjs(xs: seq<Json>)
    requires forall i :: 0 <= i < |xs| ==> xs[i].JObj?
    ensures ObjItems(xs) == xs
  {
    if xs != [] {
      ObjItemsOfObjs(xs[1..]);
      assert [xs[0]] + xs[1..] == xs;
    }
  }

  lemma ObjItemsAppend(a: seq<Json>, b: seq<Json>)
    ensures ObjItems(a + b) == ObjItems(a) + ObjItems(b)
  {
    if a == [] {
      assert a + b == b;
    } else {
      assert (a + b)[1..] == a[1..] + b;
      ObjItemsAppend(a[1..], b);
    }
  }
}
