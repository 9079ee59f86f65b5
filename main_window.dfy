/** The decision logic of the main window: display-token normalisation,
    the variant colour, the exobiology row order and cap, the PowerPlay
    recommendation and the "Action:" hints. */
module MainWindow {
  import opened PyText
  import opened PyJson
  import opened Formatting
  import opened Config
  import opened ExoValues

  // ---------------------------------------------------------------------
  // `_norm_token`

  /** The last non-empty part of `parts`, if any. */
  function LastNonEmpty(parts: seq<string>): (r: Option<string>)
    ensures r.Some? ==> r.value != [] && r.value in parts
    ensures r.None? <==> forall i :: 0 <= i < |parts| ==> parts[i] == []
  {
    if parts == [] then None
    else if parts[|parts| - 1] != [] then Some(parts[|parts| - 1])
    else LastNonEmpty(parts[..|parts| - 1])
  }

  /** The meaningful tail of a token: with an underscore, the last non-empty
      underscore-separated part, or the token itself when every part is empty. */
  function Tail(s: string): (r: string)
    ensures '_' in s && LastNonEmpty(SplitChar(s, '_')).Some? ==> '_' !in r && r != []
    ensures '_' !in s ==> r == s
  {
    if '_' in s then
      match LastNonEmpty(SplitChar(s, '_'))
      case Some(p) => p
      case None => s
    else s
  }

  /** The text `_norm_token` trims down to its core: trimmed, one trailing
      `;` (then trimmed again), one leading `$`. */
  function Unwrapped(t: string): string {
    var s1 := Strip(t);
    var s2 := if EndsWith(s1, ";") then Strip(s1[..|s1| - 1]) else s1;
    if StartsWith(s2, "$") then s2[1..] else s2
  }

  /** The core the normalised text is made from. */
  function NormCore(t: string): string {
    Strip(ReplaceChar(Tail(Unwrapped(t)), '_', ' '))
  }

  /** `_norm_token` after `fmt.text`: the normalised text has no underscore,
      no white space at either end and never starts with a lower-case
      letter. */
  function NormText(t: string): (r: string)
    ensures t == [] ==> r == []
    ensures '_' !in r
    ensures Trimmed(r)
    ensures r != [] ==> !IsLowerChar(r[0])
  {
    if t == [] then []
    else
      var w := ReplaceChar(Tail(Unwrapped(t)), '_', ' ');
      assert '_' !in w;
      StripKeepsAbsent(w, '_');
      var core := Strip(w);
      if core == [] then []
      else if IsUpper(core) then core
      else
        var r := UpperFirst(core);
        UpperFirstKeepsAbsent(core, '_');
        assert IsSpace(r[0]) <==> IsSpace(core[0]);
        assert r[|r| - 1] == core[|core| - 1] || |r| == 1;
        r
  }

  /** `_norm_token(value)`: the display text of a journal token. */
  function NormToken(v: Json): (r: string)
    ensures v == JNull ==> r == []
    ensures '_' !in r && Trimmed(r)
    ensures r != [] ==> !IsLowerChar(r[0])
  {
    NormText(Text(v, ""))
  }

  /** An all-capitals core is shown as it is; any other core only has its
      first letter upper-cased, the rest unchanged. */
  lemma NormTextCase(t: string)
    requires t != [] && NormCore(t) != []
    ensures IsUpper(NormCore(t)) ==> NormText(t) == NormCore(t)
    ensures !IsUpper(NormCore(t)) ==>
      (|NormText(t)| == |NormCore(t)| && NormText(t)[0] == UpperChar(NormCore(t)[0]) && NormText(t)[1..] == NormCore(t)[1..])
  {
  }

  /** A text without the character `c` does not start with a prefix holding it. */
  lemma NotStartsWithout(x: string, p: string, c: char)
    requires c !in x && c in p
    ensures !StartsWith(x, p)
  {
    var j :| 0 <= j < |p| && p[j] == c;
    if |p| <= |x| {
      assert x[..|p|][j] == x[j];
    }
  }

  /** A token prefix cannot start a text without underscores. */
  lemma NoPrefixWithoutUnderscore(x: string, ps: seq<string>)
    requires '_' !in x
    requires forall i :: 0 <= i < |ps| ==> '_' in ps[i]
    ensures DropFirstPrefix(x, ps) == x
  {
    forall i | 0 <= i < |ps| ensures !StartsWith(x, ps[i]) {
      NotStartsWithout(x, ps[i], '_');
    }
  }

  /** A plain display word (trimmed, no underscore, no `$` in front, no `;`
      behind, not starting lower-case) is cleaned to itself by `fmt.text`. */
  lemma TextOfPlain(x: string)
    requires x != [] && Trimmed(x) && '_' !in x && !IsLowerChar(x[0])
    requires x[0] != '$' && x[|x| - 1] != ';'
    ensures Text(JStr(x), "") == x
  {
    StripNoEdges(x);
    assert !StartsWith(x, "$") && !EndsWith(x, ";");
    assert Unwrap(x) == x;
    assert '_' in TokenPrefixes[0] && '_' in TokenPrefixes[1] && '_' in TokenPrefixes[2] && '_' in TokenPrefixes[3];
    NoPrefixWithoutUnderscore(x, TokenPrefixes);
    DespacePlain(x);
    UpperFirstUpper(x);
    CleanStrSteps(x);
  }

  /** A plain display word is a fixed point of `_norm_token`. */
  lemma NormTextPlain(x: string)
    requires x != [] && Trimmed(x) && '_' !in x && !IsLowerChar(x[0])
    requires x[0] != '$' && x[|x| - 1] != ';'
    ensures NormText(x) == x
  {
    StripNoEdges(x);
    assert !EndsWith(x, ";") && !StartsWith(x, "$");
    assert Unwrapped(x) == x;
    ReplaceCharAbsent(x, '_', ' ');
    if !IsUpper(x) {
      UpperFirstUpper(x);
    }
  }

  lemma NormTokenPlain(x: string)
    requires x != [] && Trimmed(x) && '_' !in x && !IsLowerChar(x[0])
    requires x[0] != '$' && x[|x| - 1] != ';'
    ensures NormToken(JStr(x)) == x
  {
    TextOfPlain(x);
    NormTextPlain(x);
  }

  lemma TextEconomy()
    ensures Text(JStr("$economy_Extraction;"), "") == "Extraction"
  {
    var x := "Extraction";
    CleanTokenEconomy();
    assert Trimmed(x) by { assert x[0] == 'E' && x[9] == 'n'; }
    StripNoEdges(x);
  }

  /** The docstring's example: `$economy_Extraction;` is shown as `Extraction`. */
  lemma NormTokenEconomy()
    ensures NormToken(JStr("$economy_Extraction;")) == "Extraction"
  {
    var x := "Extraction";
    TextEconomy();
    assert Trimmed(x) by { assert x[0] == 'E' && x[9] == 'n'; }
    assert '_' !in x by { assert forall i | 0 <= i < |x| :: x[i] != '_'; }
    assert x[0] != '$' && x[|x| - 1] != ';' && !IsLowerChar(x[0]);
    NormTextPlain(x);
  }

  lemma TextSecurity()
    ensures Text(JStr("$SYSTEM_SECURITY_low;"), "") == "Low"
  {
    var x := "Low";
    CleanTokenSecurity();
    assert Trimmed(x) by { assert x[0] == 'L' && x[2] == 'w'; }
    StripNoEdges(x);
  }

  /** The docstring's example: `$SYSTEM_SECURITY_low;` is shown as `Low`. */
  lemma NormTokenSecurity()
    ensures NormToken(JStr("$SYSTEM_SECURITY_low;")) == "Low"
  {
    var x := "Low";
    TextSecurity();
    assert Trimmed(x) by { assert x[0] == 'L' && x[2] == 'w'; }
    assert '_' !in x by { assert forall i | 0 <= i < |x| :: x[i] != '_'; }
    assert x[0] != '$' && x[|x| - 1] != ';' && !IsLowerChar(x[0]);
    NormTextPlain(x);
  }

  lemma TextGovernment()
    ensures Text(JStr("$government_Corporate;"), "") == "Corporate"
  {
    var x := "Corporate";
    CleanTokenGovernment();
    assert Trimmed(x) by { assert x[0] == 'C' && x[8] == 'e'; }
    StripNoEdges(x);
  }

  /** The docstring's example: `$government_Corporate;` is shown as `Corporate`. */
  lemma NormTokenGovernment()
    ensures NormToken(JStr("$government_Corporate;")) == "Corporate"
  {
    var x := "Corporate";
    TextGovernment();
    assert Trimmed(x) by { assert x[0] == 'C' && x[8] == 'e'; }
    assert '_' !in x by { assert forall i | 0 <= i < |x| :: x[i] != '_'; }
    assert x[0] != '$' && x[|x| - 1] != ';' && !IsLowerChar(x[0]);
    NormTextPlain(x);
  }

  // ---------------------------------------------------------------------
  // `_variant_color`

  const VariantSep := " - "

  /** `_variant_color(v)`: the short colour part of a variant name. */
  function VariantColor(v: Json): (r: string)
    ensures !v.JStr? ==> r == []
    ensures v.JStr? && !Contains(Collapse(v.s), VariantSep) ==> r == Collapse(v.s)
    ensures v.JStr? && Contains(Collapse(v.s), VariantSep) ==>
      (Trimmed(r) && exists pre, post :: Collapse(v.s) == pre + VariantSep + post && !Contains(pre, VariantSep) && r == Strip(post))
  {
    if !v.JStr? then []
    else
      var s := Collapse(v.s);
      if s == [] then []
      else if Contains(s, VariantSep) then
        var parts := SplitOnce(s, VariantSep);
        Strip(parts.1)
      else s
  }

  /** With no dash in `name`, `" - "` does not occur before the end of `name`. */
  lemma NoSepInName(name: string, rest: string, j: nat)
    requires '-' !in name && j < |name|
    ensures !OccursAt(name + VariantSep + rest, VariantSep, j)
  {
    var s := name + VariantSep + rest;
    assert s[j + 1] != '-' by {
      if j + 1 < |name| {
        assert s[j + 1] == name[j + 1];
      } else {
        assert s[j + 1] == VariantSep[0];
      }
    }
    if j + 3 <= |s| {
      assert s[j..j + 3][1] == s[j + 1];
    }
  }

  /** `"Stratum Tectonicas - Green"` gives `"Green"`: the part after the first
      `" - "` when the name before it has no dash. */
  lemma VariantColorOf(name: string, color: string)
    requires '-' !in name
    requires Collapse(name + VariantSep + color) == name + VariantSep + color
    requires Trimmed(color)
    ensures VariantColor(JStr(name + VariantSep + color)) == color
  {
    var s := name + VariantSep + color;
    assert OccursAt(s, VariantSep, |name|) by { assert s[|name|..|name| + 3] == VariantSep; }
    forall j | 0 <= j < |name| ensures !OccursAt(s, VariantSep, j) {
      NoSepInName(name, color, j);
    }
    var i := Find(s, VariantSep);
    assert i == |name|;
    assert SplitOnce(s, VariantSep).1 == s[|name| + 3..];
    assert s[|name| + 3..] == color;
    StripNoEdges(color);
  }

  // ---------------------------------------------------------------------
  // Exobiology rows: `_status_rank`, the sort and the 80-row cap

  /** `_status_rank(s)` */
  function StatusRank(s: Json): (r: int)
    ensures !s.JStr? ==> r == 99
    ensures s == JStr("COMPLETE") ==> r == 50
    ensures s.JStr? && s != JStr("COMPLETE") && StartsWith(s.s, "NEEDS DSS") ==> r == 10
    ensures s == JStr("UNSCANNED") ==> r == 20
    ensures s == JStr("CODEX") ==> r == 25
    ensures s.JStr? && !StartsWith(s.s, "NEEDS DSS") && s != JStr("COMPLETE") && s != JStr("UNSCANNED") && s != JStr("CODEX") ==> r == 30
  {
    assert !StartsWith("UNSCANNED", "NEEDS DSS") by { assert "UNSCANNED"[0] != "NEEDS DSS"[0]; }
    if !s.JStr? then 99
    else if s.s == "COMPLETE" then 50
    else if StartsWith(s.s, "NEEDS DSS") then 10
    else if s.s == "UNSCANNED" then 20
    else if s.s == "CODEX" then 25
    else 30
  }

  /** A row of the exobiology table: the sample count, the status cell and
      the display cells after them. */
  datatype ExoRow = ExoRow(samples: int, status: Json, cells: seq<string>)

  /** The order of `key=(_status_rank(status), -samples)`. */
  predicate KeyLe(a: ExoRow, b: ExoRow) {
    StatusRank(a.status) < StatusRank(b.status)
    || (StatusRank(a.status) == StatusRank(b.status) && a.samples >= b.samples)
  }

  predicate Sorted(rows: seq<ExoRow>) {
    forall i, j :: 0 <= i < j < |rows| ==> KeyLe(rows[i], rows[j])
  }

  /** `x` placed after the last row whose key is not greater than its own. */
  function Insert(x: ExoRow, rows: seq<ExoRow>): (r: seq<ExoRow>)
    ensures |r| == |rows| + 1
  {
    if rows == [] then [x]
    else if KeyLe(rows[|rows| - 1], x) then rows + [x]
    else Insert(x, rows[..|rows| - 1]) + [rows[|rows| - 1]]
  }

  /** `rows.sort(key=...)`: a stable insertion sort. */
  function SortRows(rows: seq<ExoRow>): (r: seq<ExoRow>)
    ensures |r| == |rows|
  {
    if rows == [] then [] else Insert(rows[|rows| - 1], SortRows(rows[..|rows| - 1]))
  }

  lemma {:induction false} InsertPerm(x: ExoRow, rows: seq<ExoRow>)
    ensures multiset(Insert(x, rows)) == multiset(rows) + multiset{x}
  {
    if rows != [] && !KeyLe(rows[|rows| - 1], x) {
      InsertPerm(x, rows[..|rows| - 1]);
      assert rows == rows[..|rows| - 1] + [rows[|rows| - 1]];
    }
  }

  lemma {:induction false} InsertSorted(x: ExoRow, rows: seq<ExoRow>)
    requires Sorted(rows)
    ensures Sorted(Insert(x, rows))
  {
    if rows != [] {
      var last := rows[|rows| - 1];
      var init := rows[..|rows| - 1];
      if !KeyLe(last, x) {
        InsertSorted(x, init);
        InsertPerm(x, init);
        var ins := Insert(x, init);
        forall i | 0 <= i < |ins| ensures KeyLe(ins[i], last) {
          assert ins[i] in multiset(init) + multiset{x};
          if ins[i] != x {
            assert ins[i] in init;
            var k :| 0 <= k < |init| && init[k] == ins[i];
            assert rows[k] == init[k];
          }
        }
        assert Insert(x, rows) == ins + [last];
      }
    }
  }

  /** Two rows with the same sort key. */
  predicate SameKey(a: ExoRow, b: ExoRow) {
    StatusRank(a.status) == StatusRank(b.status) && a.samples == b.samples
  }

  /** The rows whose sort key is that of `k`, in their order in `rows`. */
  function KeyRows(rows: seq<ExoRow>, k: ExoRow): (r: seq<ExoRow>)
    ensures |r| <= |rows|
  {
    if rows == [] then []
    else KeyRows(rows[..|rows| - 1], k) + (if SameKey(rows[|rows| - 1], k) then [rows[|rows| - 1]] else [])
  }

  lemma {:induction false} KeyRowsAppend(a: seq<ExoRow>, b: seq<ExoRow>, k: ExoRow)
    ensures KeyRows(a + b, k) == KeyRows(a, k) + KeyRows(b, k)
  {
    if b == [] {
      assert a + b == a;
    } else {
      KeyRowsAppend(a, b[..|b| - 1], k);
      assert (a + b)[..|a + b| - 1] == a + b[..|b| - 1];
      assert (a + b)[|a + b| - 1] == b[|b| - 1];
    }
  }

  /** Inserting `x` keeps the order of the rows sharing a key with `k`, with
      `x` after them when it shares that key too. */
  lemma {:induction false} InsertKeyRows(x: ExoRow, rows: seq<ExoRow>, k: ExoRow)
    ensures KeyRows(Insert(x, rows), k) == KeyRows(rows, k) + KeyRows([x], k)
  {
    if rows == [] {
    } else if KeyLe(rows[|rows| - 1], x) {
      KeyRowsAppend(rows, [x], k);
    } else {
      var init, last := rows[..|rows| - 1], rows[|rows| - 1];
      InsertKeyRows(x, init, k);
      KeyRowsAppend(Insert(x, init), [last], k);
      assert !(SameKey(x, k) && SameKey(last, k));
    }
  }

  /** The sort is stable: the rows sharing a sort key appear in the sorted
      rows in the order they had before. */
  lemma {:induction false} SortRowsStable(rows: seq<ExoRow>, k: ExoRow)
    ensures KeyRows(SortRows(rows), k) == KeyRows(rows, k)
  {
    if rows != [] {
      var init := rows[..|rows| - 1];
      SortRowsStable(init, k);
      InsertKeyRows(rows[|rows| - 1], SortRows(init), k);
    }
  }

  /** The sorted rows are the same rows, in key order. */
  lemma {:induction false} SortRowsSpec(rows: seq<ExoRow>)
    ensures Sorted(SortRows(rows))
    ensures multiset(SortRows(rows)) == multiset(rows)
  {
    if rows != [] {
      var init := rows[..|rows| - 1];
      SortRowsSpec(init);
      InsertSorted(rows[|rows| - 1], SortRows(init));
      InsertPerm(rows[|rows| - 1], SortRows(init));
      assert rows == init + [rows[|rows| - 1]];
    }
  }

  const MaxExoRows := 80

  /** `shown = rows[:80]` after sorting. */
  function Shown(rows: seq<ExoRow>): (r: seq<ExoRow>)
    ensures |r| == if |rows| < MaxExoRows then |rows| else MaxExoRows
  {
    var sorted := SortRows(rows);
    if |sorted| <= MaxExoRows then sorted else sorted[..MaxExoRows]
  }

  /** The table shows at most 80 of the rows, in key order, and every row
      left out sorts after every row shown. */
  lemma ShownSpec(rows: seq<ExoRow>)
    ensures |Shown(rows)| <= MaxExoRows
    ensures Sorted(Shown(rows))
    ensures multiset(Shown(rows)) <= multiset(rows)
    ensures forall i, j :: 0 <= i < |Shown(rows)| <= j < |rows| ==> KeyLe(Shown(rows)[i], SortRows(rows)[j])
  {
    var sorted := SortRows(rows);
    SortRowsSpec(rows);
    if |sorted| > MaxExoRows {
      assert sorted == sorted[..MaxExoRows] + sorted[MaxExoRows..];
      assert multiset(sorted) == multiset(sorted[..MaxExoRows]) + multiset(sorted[MaxExoRows..]);
    }
  }

  /** Of the rows sharing a sort key, the table shows the first ones in
      their original order. */
  lemma ShownStable(rows: seq<ExoRow>, k: ExoRow)
    ensures KeyRows(Shown(rows), k) <= KeyRows(rows, k)
  {
    var sorted := SortRows(rows);
    SortRowsStable(rows, k);
    if |sorted| > MaxExoRows {
      assert sorted == sorted[..MaxExoRows] + sorted[MaxExoRows..];
      KeyRowsAppend(sorted[..MaxExoRows], sorted[MaxExoRows..], k);
    }
  }

  // ---------------------------------------------------------------------
  // `_refresh_powerplay`: the relationship and the recommended action

  /** `friendly = bool(ctrl and ctrl == pledged)`, `enemy = bool(ctrl and ctrl != pledged)`. */
  predicate Friendly(pledged: Json, ctrl: Json) { Truthy(ctrl) && PyEq(ctrl, pledged) }
  predicate Enemy(pledged: Json, ctrl: Json) { Truthy(ctrl) && !PyEq(ctrl, pledged) }

  /** `str(pp_state or "").strip().lower()` */
  function PPStateText(ppState: Json): string {
    Lower(Strip(Show(Or(ppState, JStr("")))))
  }

  /** The group of states the text falls in, in the order they are tested:
      3 stronghold or fortified, 2 contested or conflict, 1 unoccupied, 0 other. */
  function StateTier(s: string): nat {
    if Contains(s, "stronghold") || Contains(s, "fortified") then 3
    else if Contains(s, "contested") || Contains(s, "conflict") then 2
    else if Contains(s, "unoccupied") then 1
    else 0
  }

  /** The actions the panel can recommend. */
  datatype Advice =
    | FortifyDefend | EnemyStronghold | StrongholdAlert
    | SupportConflict | EnemyContested | ContestedRisk
    | PowerPresent | NoObjective
    | EnemySpace | FriendlySpace

  /** The state group an action belongs to. */
  function Tier(a: Advice): nat {
    match a
    case FortifyDefend => 3
    case EnemyStronghold => 3
    case StrongholdAlert => 3
    case SupportConflict => 2
    case EnemyContested => 2
    case ContestedRisk => 2
    case PowerPresent => 1
    case NoObjective => 1
    case EnemySpace => 0
    case FriendlySpace => 0
  }

  /** Actions that only a system under the pledged power's control gets. */
  predicate ForFriendly(a: Advice) { a == FortifyDefend || a == SupportConflict || a == FriendlySpace }
  /** Actions that only a system controlled by another power gets. */
  predicate ForEnemy(a: Advice) { a == EnemyStronghold || a == EnemyContested || a == EnemySpace }

  /** The action `_refresh_powerplay` recommends; None when not pledged or
      when nothing applies. */
  function Recommend(pledged: Json, ctrl: Json, ppState: Json, powers: Json): (r: Option<Advice>)
    ensures !Truthy(pledged) ==> r.None?
    ensures Truthy(pledged) && StateTier(PPStateText(ppState)) > 0 ==>
      r.Some? && Tier(r.value) == StateTier(PPStateText(ppState))
    ensures Truthy(pledged) && StateTier(PPStateText(ppState)) == 0 ==>
      (r.None? <==> !Truthy(ctrl)) && (r.Some? ==> Tier(r.value) == 0)
  {
    if !Truthy(pledged) then None
    else
      var friendly := Friendly(pledged, ctrl);
      var enemy := Enemy(pledged, ctrl);
      var tier := StateTier(PPStateText(ppState));
      if tier == 3 then
        Some(if friendly then FortifyDefend else if enemy then EnemyStronghold else StrongholdAlert)
      else if tier == 2 then
        Some(if friendly then SupportConflict else if enemy then EnemyContested else ContestedRisk)
      else if tier == 1 then
        Some(if ListsPower(Or(powers, JList([])), pledged) then PowerPresent else NoObjective)
      else if enemy then Some(EnemySpace)
      else if friendly then Some(FriendlySpace)
      else None
  }

  /** A friendly action is only recommended in a system under the pledged
      power. */
  lemma FriendlyAdvice(pledged: Json, ctrl: Json, ppState: Json, powers: Json)
    requires Recommend(pledged, ctrl, ppState, powers).Some?
    requires ForFriendly(Recommend(pledged, ctrl, ppState, powers).value)
    ensures Friendly(pledged, ctrl)
  {
  }

  /** A hostile action is only recommended in a system controlled by another
      power. */
  lemma EnemyAdvice(pledged: Json, ctrl: Json, ppState: Json, powers: Json)
    requires Recommend(pledged, ctrl, ppState, powers).Some?
    requires ForEnemy(Recommend(pledged, ctrl, ppState, powers).value)
    ensures Enemy(pledged, ctrl)
  {
  }

  /** `isinstance(powers, list) and pledged in powers` */
  predicate ListsPower(powers: Json, pledged: Json) {
    powers.JList? && exists i :: 0 <= i < |powers.items| && PyEq(pledged, powers.items[i])
  }

  /** `powers or []` lists the same powers as `powers`. */
  lemma ListsPowerOr(powers: Json, pledged: Json)
    ensures ListsPower(Or(powers, JList([])), pledged) <==> ListsPower(powers, pledged)
  {
    if !Truthy(powers) && powers.JList? {
      assert powers.items == [];
    }
  }

  /** "Your power is present" is recommended exactly in unoccupied space
      whose list of powers holds the pledged one. */
  lemma PowerPresentAdvice(pledged: Json, ctrl: Json, ppState: Json, powers: Json)
    ensures Recommend(pledged, ctrl, ppState, powers) == Some(PowerPresent) <==>
      Truthy(pledged) && StateTier(PPStateText(ppState)) == 1 && ListsPower(powers, pledged)
  {
    ListsPowerOr(powers, pledged);
  }

  /** A system controlled by the pledged power gets the friendly action of
      its state group, and one controlled by another power the hostile one. */
  lemma RecommendByRelation(pledged: Json, ctrl: Json, ppState: Json, powers: Json)
    requires Truthy(pledged) && Truthy(ctrl)
    ensures StateTier(PPStateText(ppState)) != 1 && PyEq(ctrl, pledged) ==>
      Recommend(pledged, ctrl, ppState, powers).Some? && ForFriendly(Recommend(pledged, ctrl, ppState, powers).value)
    ensures StateTier(PPStateText(ppState)) != 1 && !PyEq(ctrl, pledged) ==>
      Recommend(pledged, ctrl, ppState, powers).Some? && ForEnemy(Recommend(pledged, ctrl, ppState, powers).value)
  {
  }

  /** Python's `==` decides the relationship: a power recorded as `1` and
      one recorded as `True` are the same power, so a neutral state gives
      the friendly-space advice. */
  lemma EqualByValueFriendly()
    ensures Recommend(JInt(1), JBool(true), JStr(""), JNull) == Some(FriendlySpace)
  {
    assert PPStateText(JStr("")) == [];
  }

  // ---------------------------------------------------------------------
  // `_compute_action_state`

  /** `int(cfg.min_planet_value_100k or 10)`, clamped at zero. */
  function Min100k(cfg: AppConfig): (r: nat)
    ensures cfg.minPlanetValue100k > 0 ==> r == cfg.minPlanetValue100k
    ensures cfg.minPlanetValue100k == 0 ==> r == 10
    ensures cfg.minPlanetValue100k < 0 ==> r == 0
  {
    var m := if cfg.minPlanetValue100k == 0 then 10 else cfg.minPlanetValue100k;
    if m < 0 then 0 else m
  }

  /** `max(300_000, int(min_value * 0.20))`, with the product taken exactly. */
  function FssValue(cfg: AppConfig): (r: int)
    ensures r >= 300_000
    ensures r >= Min100k(cfg) * 100_000 / 5
    ensures r == 300_000 || r == Min100k(cfg) * 100_000 / 5
  {
    var v := Min100k(cfg) * 100_000 / 5;
    if v > 300_000 then v else 300_000
  }

  /** `int(cfg.exo_high_value_m or 2)` */
  function ExoMillions(cfg: AppConfig): (r: int)
    ensures r != 0
    ensures cfg.exoHighValueM != 0 ==> r == cfg.exoHighValueM
    ensures cfg.exoHighValueM == 0 ==> r == 2
  {
    if cfg.exoHighValueM == 0 then 2 else cfg.exoHighValueM
  }

  function ExoMin(cfg: AppConfig): int { ExoMillions(cfg) * 1_000_000 }

  /** `genus_max` for the species table `t`, over the species whose records
      lie in `done`: every genus named there, each at the largest base value
      among its species, and never below zero. */
  predicate IsGenusMaxOver(t: Table, done: set<string>, gm: map<string, int>) {
    (forall g :: g in gm ==> exists sp :: sp in done && sp in t && t[sp].genus == JStr(g))
    && (forall sp :: sp in done && sp in t && t[sp].genus.JStr? ==>
          t[sp].genus.s in gm && gm[t[sp].genus.s] >= t[sp].baseValue)
    && (forall g :: g in gm ==>
          gm[g] >= 0 && (gm[g] == 0 || exists sp :: sp in done && sp in t && t[sp].genus == JStr(g) && t[sp].baseValue == gm[g]))
  }

  predicate IsGenusMax(t: Table, gm: map<string, int>) {
    IsGenusMaxOver(t, t.Keys, gm)
  }

  /** The genus table is determined by the species table. */
  lemma GenusMaxUnique(t: Table, a: map<string, int>, b: map<string, int>)
    requires IsGenusMax(t, a) && IsGenusMax(t, b)
    ensures a == b
  {
    forall g | g in a ensures g in b && a[g] <= b[g] {
      var sp :| sp in t && t[sp].genus == JStr(g);
      if a[g] != 0 {
        var sp2 :| sp2 in t && t[sp2].genus == JStr(g) && t[sp2].baseValue == a[g];
      }
    }
    forall g | g in b ensures g in a && b[g] <= a[g] {
      var sp :| sp in t && t[sp].genus == JStr(g);
      if b[g] != 0 {
        var sp2 :| sp2 in t && t[sp2].genus == JStr(g) && t[sp2].baseValue == b[g];
      }
    }
  }

  /** One species record folded into `genus_max`. */
  method AddSpecies(t: Table, done: set<string>, sp: string, gm: map<string, int>) returns (gm': map<string, int>)
    requires sp in t && sp !in done
    requires IsGenusMaxOver(t, done, gm)
    ensures IsGenusMaxOver(t, done + {sp}, gm')
  {
    var rec := t[sp];
    if rec.genus.JStr? {
      var g := rec.genus.s;
      var old_v := if g in gm then gm[g] else 0;
      var v := if rec.baseValue > old_v then rec.baseValue else old_v;
      gm' := gm[g := v];
    } else {
      gm' := gm;
    }
  }

  /** The `genus_max` loop over the species table (empty without a table). */
  method GenusMax(exo: Option<Table>) returns (gm: map<string, int>)
    ensures exo.None? ==> gm == map[]
    ensures exo.Some? ==> IsGenusMax(exo.value, gm)
  {
    gm := map[];
    if exo.Some? {
      var t := exo.value;
      var done: set<string> := {};
      var rest := t.Keys;
      while rest != {}
        invariant done + rest == t.Keys && done !! rest
        invariant IsGenusMaxOver(t, done, gm)
        decreases |rest|
      {
        var sp :| sp in rest;
        gm := AddSpecies(t, done, sp, gm);
        done := done + {sp};
        rest := rest - {sp};
      }
    }
  }

  /** `genus_max` as built for the (possibly absent) species table. */
  predicate GenusTableOf(exo: Option<Table>, gm: map<string, int>) {
    if exo.None? then gm == map[] else IsGenusMax(exo.value, gm)
  }

  /** The three per-body counts of the first bodies loop. */
  datatype Need = TfUnmapped | ValueUnmapped(fss: int) | NeedsDss

  predicate Mapped(rec: Obj) { Truthy(GetOr(rec, "Mapped", JBool(false))) }

  /** A body record counts towards `need`. */
  predicate Qualifies(need: Need, rec: Obj) {
    match need
    case TfUnmapped => Truthy(GetOr(rec, "Terraformable", JBool(false))) && !Mapped(rec)
    case ValueUnmapped(fss) =>
      var est := Get(rec, "EstimatedValue");
      IsInt(est) && IntOf(est) >= fss && !Mapped(rec)
    case NeedsDss =>
      var bio := Or(GetOr(rec, "BioSignals", JInt(0)), JInt(0));
      var gen := Or(GetOr(rec, "BioGenuses", JList([])), JList([]));
      IsInt(bio) && IntOf(bio) > 0 && !Truthy(gen)
  }

  /** The number of dict bodies among the first `n` that qualify. */
  function CountWhere(bodies: Obj, n: nat, need: Need): nat
    requires n <= |bodies|
  {
    if n == 0 then 0
    else
      var v := bodies[n - 1].val;
      CountWhere(bodies, n - 1, need) + (if v.JObj? && Qualifies(need, v.members) then 1 else 0)
  }

  /** A count is positive exactly when some dict body qualifies. */
  lemma {:induction false} CountWherePositive(bodies: Obj, n: nat, need: Need)
    requires n <= |bodies|
    ensures CountWhere(bodies, n, need) > 0 <==>
      exists i :: 0 <= i < n && bodies[i].val.JObj? && Qualifies(need, bodies[i].val.members)
  {
    if n > 0 {
      CountWherePositive(bodies, n - 1, need);
    }
  }

  datatype BodyCounts = BodyCounts(highValue: nat, terraformable: nat, needDss: nat)

  function Counts(bodies: Obj, n: nat, fss: int): BodyCounts
    requires n <= |bodies|
  {
    BodyCounts(CountWhere(bodies, n, ValueUnmapped(fss)), CountWhere(bodies, n, TfUnmapped), CountWhere(bodies, n, NeedsDss))
  }

  /** The counts after one more body record: a record that is not a dict
      is skipped, a dict adds one to each count it qualifies for. */
  function AddBody(c: BodyCounts, v: Json, fss: int): BodyCounts {
    if v.JObj? then
      BodyCounts(c.highValue + (if Qualifies(ValueUnmapped(fss), v.members) then 1 else 0),
        c.terraformable + (if Qualifies(TfUnmapped, v.members) then 1 else 0),
        c.needDss + (if Qualifies(NeedsDss, v.members) then 1 else 0))
    else c
  }

  lemma CountsSnoc(bodies: Obj, n: nat, fss: int)
    requires n < |bodies|
    ensures Counts(bodies, n + 1, fss) == AddBody(Counts(bodies, n, fss), bodies[n].val, fss)
  {
  }

  /** The first bodies loop: non-dict records are skipped. */
  method CountBodies(bodies: Obj, fss: int) returns (c: BodyCounts)
    ensures c == Counts(bodies, |bodies|, fss)
  {
    c := BodyCounts(0, 0, 0);
    var i := 0;
    while i < |bodies|
      invariant 0 <= i <= |bodies|
      invariant c == Counts(bodies, i, fss)
    {
      CountsSnoc(bodies, i, fss);
      c := AddBody(c, bodies[i].val, fss);
      i := i + 1;
    }
  }

  /** What `for g in gen` walks: a list's items, a string's characters, a
      dict's keys; None for a value Python cannot iterate. */
  function GenusIter(gen: Json): Option<seq<Json>> {
    match gen
    case JList(xs) => Some(xs)
    case JStr(s) => Some(seq(|s|, i requires 0 <= i < |s| => JStr([s[i]])))
    case JObj(ms) => Some(StrJsons(Keys(Items(ms))))
    case _ => None
  }

  /** `genus_max.get(g, 0)`; None when `g` is unhashable (a list or a dict). */
  function GenusValue(gm: map<string, int>, g: Json): Option<int> {
    match g
    case JList(_) => None
    case JObj(_) => None
    case JStr(s) => Some(if s in gm then gm[s] else 0)
    case _ => Some(0)
  }

  /** A genus whose best known species reaches the threshold. */
  predicate IsHigh(gm: map<string, int>, g: Json, exoMin: int) {
    GenusValue(gm, g).Some? && GenusValue(gm, g).value >= exoMin
  }

  /** The inner loop with its `break`: Some(true) at the first high genus,
      None when an unhashable genus comes first. */
  function AnyHigh(gs: seq<Json>, gm: map<string, int>, exoMin: int): Option<bool> {
    if gs == [] then Some(false)
    else
      match GenusValue(gm, gs[0])
      case None => None
      case Some(v) => if v >= exoMin then Some(true) else AnyHigh(gs[1..], gm, exoMin)
  }

  /** When the inner loop finishes, it found a high genus exactly when the
      genera hold one. */
  lemma {:induction false} AnyHighSpec(gs: seq<Json>, gm: map<string, int>, exoMin: int)
    requires AnyHigh(gs, gm, exoMin).Some?
    ensures AnyHigh(gs, gm, exoMin).value <==> exists j :: 0 <= j < |gs| && IsHigh(gm, gs[j], exoMin)
  {
    if gs != [] && !IsHigh(gm, gs[0], exoMin) {
      AnyHighSpec(gs[1..], gm, exoMin);
      if exists j :: 0 <= j < |gs| && IsHigh(gm, gs[j], exoMin) {
        var j :| 0 <= j < |gs| && IsHigh(gm, gs[j], exoMin);
        assert gs[1..][j - 1] == gs[j];
      }
    }
  }

  /** One body of the second loop; None when it raises (the record is not a
      dict, its genera cannot be iterated, or a genus is unhashable). */
  function BodyHigh(rec: Json, gm: map<string, int>, exoMin: int): Option<bool> {
    if !rec.JObj? then None
    else
      var gen := Or(GetOr(rec.members, "BioGenuses", JList([])), JList([]));
      match GenusIter(gen)
      case None => None
      case Some(gs) => AnyHigh(gs, gm, exoMin)
  }

  /** `dss_hv` over the first `n` bodies; None once a body raises. */
  function DssCount(bodies: Obj, n: nat, gm: map<string, int>, exoMin: int): Option<nat>
    requires n <= |bodies|
  {
    if n == 0 then Some(0)
    else
      match DssCount(bodies, n - 1, gm, exoMin)
      case None => None
      case Some(k) =>
        match BodyHigh(bodies[n - 1].val, gm, exoMin)
        case None => None
        case Some(b) => Some(k + (if b then 1 else 0))
  }

  /** The second loop raises exactly when some body raises, and otherwise
      counts a body exactly when it has a high-value genus. */
  lemma {:induction false} DssCountSpec(bodies: Obj, n: nat, gm: map<string, int>, exoMin: int)
    requires n <= |bodies|
    ensures DssCount(bodies, n, gm, exoMin).None? <==> exists i :: 0 <= i < n && BodyHigh(bodies[i].val, gm, exoMin).None?
    ensures DssCount(bodies, n, gm, exoMin).Some? ==>
      (DssCount(bodies, n, gm, exoMin).value > 0 <==> exists i :: 0 <= i < n && BodyHigh(bodies[i].val, gm, exoMin) == Some(true))
  {
    if n > 0 {
      DssCountSpec(bodies, n - 1, gm, exoMin);
    }
  }

  /** The inner `for g in gen` loop with its `break`. */
  method ScanGenera(gs: seq<Json>, gm: map<string, int>, exoMin: int) returns (r: Option<bool>)
    ensures r == AnyHigh(gs, gm, exoMin)
  {
    var i := 0;
    while i < |gs|
      invariant 0 <= i <= |gs|
      invariant AnyHigh(gs, gm, exoMin) == AnyHigh(gs[i..], gm, exoMin)
    {
      assert gs[i..][1..] == gs[i + 1..];
      var v := GenusValue(gm, gs[i]);
      if v.None? {
        return None;
      }
      if v.value >= exoMin {
        return Some(true);
      }
      i := i + 1;
    }
    r := Some(false);
  }

  /** One body of the second loop. */
  method ScanBody(rec: Json, gm: map<string, int>, exoMin: int) returns (b: Option<bool>)
    ensures b == BodyHigh(rec, gm, exoMin)
  {
    if !rec.JObj? {
      return None;
    }
    var gen := Or(GetOr(rec.members, "BioGenuses", JList([])), JList([]));
    var gs := GenusIter(gen);
    if gs.None? {
      return None;
    }
    b := ScanGenera(gs.value, gm, exoMin);
  }

  /** The second bodies loop; None when it raises. */
  method CountHighValueGenera(bodies: Obj, gm: map<string, int>, exoMin: int) returns (r: Option<nat>)
    ensures r == DssCount(bodies, |bodies|, gm, exoMin)
  {
    var k := 0;
    var i := 0;
    while i < |bodies|
      invariant 0 <= i <= |bodies|
      invariant DssCount(bodies, i, gm, exoMin) == Some(k)
    {
      var b := ScanBody(bodies[i].val, gm, exoMin);
      if b.None? {
        DssNoneStays(bodies, i + 1, |bodies|, gm, exoMin);
        return None;
      }
      if b.value {
        k := k + 1;
      }
      i := i + 1;
    }
    r := Some(k);
  }

  /** Once a body has raised, the whole loop has. */
  lemma {:induction false} DssNoneStays(bodies: Obj, n: nat, m: nat, gm: map<string, int>, exoMin: int)
    requires n <= m <= |bodies|
    requires DssCount(bodies, n, gm, exoMin).None?
    ensures DssCount(bodies, m, gm, exoMin).None?
    decreases m - n
  {
    if n < m {
      DssNoneStays(bodies, n, m - 1, gm, exoMin);
    }
  }

  /** The hints of the exobiology line. */
  datatype ExoHint = RevealGenus(bodies: nat) | HighValueGenus(bodies: nat, millions: int)

  /** `out`: the exploration hint (bodies worth mapping, terraformable
      unmapped) and the exobiology hints in order. */
  datatype ActionState = ActionState(exploration: Option<(nat, nat)>, exobiology: seq<ExoHint>)

  /** `_compute_action_state` for the body records `bodies` (the items of
      `state.bodies`) and the genus table `gm`; None when it raises. */
  function ActionSpec(cfg: AppConfig, bodies: Obj, gm: map<string, int>): Option<ActionState> {
    var c := Counts(bodies, |bodies|, FssValue(cfg));
    var exploration := if c.highValue > 0 || c.terraformable > 0 then Some((c.highValue, c.terraformable)) else None;
    var revealHint := if c.needDss > 0 then [RevealGenus(c.needDss)] else [];
    match DssCount(bodies, |bodies|, gm, ExoMin(cfg))
    case None => None
    case Some(k) =>
      Some(ActionState(exploration, revealHint + (if k > 0 then [HighValueGenus(k, ExoMillions(cfg))] else [])))
  }

  /** The exploration hint appears exactly when some dict body is worth
      mapping (FSS) or is terraformable and unmapped. */
  lemma ExplorationHint(cfg: AppConfig, bodies: Obj, gm: map<string, int>)
    requires ActionSpec(cfg, bodies, gm).Some?
    ensures ActionSpec(cfg, bodies, gm).value.exploration.Some? <==>
      exists i :: 0 <= i < |bodies| && bodies[i].val.JObj? &&
        (Qualifies(ValueUnmapped(FssValue(cfg)), bodies[i].val.members) || Qualifies(TfUnmapped, bodies[i].val.members))
  {
    CountWherePositive(bodies, |bodies|, ValueUnmapped(FssValue(cfg)));
    CountWherePositive(bodies, |bodies|, TfUnmapped);
  }

  /** The genus-reveal hint comes first, and exactly when some dict body has
      biological signals and no known genus. */
  lemma RevealHint(cfg: AppConfig, bodies: Obj, gm: map<string, int>)
    requires ActionSpec(cfg, bodies, gm).Some?
    ensures (|ActionSpec(cfg, bodies, gm).value.exobiology| > 0 && ActionSpec(cfg, bodies, gm).value.exobiology[0].RevealGenus?) <==>
      exists i :: 0 <= i < |bodies| && bodies[i].val.JObj? && Qualifies(NeedsDss, bodies[i].val.members)
  {
    CountWherePositive(bodies, |bodies|, NeedsDss);
  }

  /** The high-value genus hint comes last, and exactly when some body lists
      a genus whose best known species reaches the threshold. */
  lemma HighValueHint(cfg: AppConfig, bodies: Obj, gm: map<string, int>)
    requires ActionSpec(cfg, bodies, gm).Some?
    ensures (|ActionSpec(cfg, bodies, gm).value.exobiology| > 0 &&
      ActionSpec(cfg, bodies, gm).value.exobiology[|ActionSpec(cfg, bodies, gm).value.exobiology| - 1].HighValueGenus?) <==>
      exists i :: 0 <= i < |bodies| && BodyHigh(bodies[i].val, gm, ExoMin(cfg)) == Some(true)
  {
    DssCountSpec(bodies, |bodies|, gm, ExoMin(cfg));
  }

  /** `_compute_action_state()` over the items of `state.bodies`; None when
      the second loop raises. */
  method ComputeActionState(cfg: AppConfig, exo: Option<Table>, bodies: Obj) returns (r: Option<ActionState>)
    ensures exists gm :: GenusTableOf(exo, gm) && r == ActionSpec(cfg, Items(bodies), gm)
  {
    var its := Items(bodies);
    var gm := GenusMax(exo);
    var c := CountBodies(its, FssValue(cfg));
    var exploration := if c.highValue > 0 || c.terraformable > 0 then Some((c.highValue, c.terraformable)) else None;
    var exobiology: seq<ExoHint> := if c.needDss > 0 then [RevealGenus(c.needDss)] else [];
    var dss := CountHighValueGenera(its, gm, ExoMin(cfg));
    if dss.None? {
      r := None;
    } else {
      if dss.value > 0 {
        exobiology := exobiology + [HighValueGenus(dss.value, ExoMillions(cfg))];
      } else {
        assert exobiology + [] == exobiology;
      }
      r := Some(ActionState(exploration, exobiology));
    }
    assert GenusTableOf(exo, gm);
    assert c == Counts(its, |its|, FssValue(cfg));
    assert dss == DssCount(its, |its|, gm, ExoMin(cfg));
    assert r == ActionSpec(cfg, its, gm);
  }
}
