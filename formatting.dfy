/** Display helpers of the UI: journal token cleaning, safe text, credit
    figures and meta-line joining. */
module Formatting {
  import opened PyText
  import opened PyJson

  /** The system-meta prefixes `clean_token` drops; at most one is removed. */
  const TokenPrefixes: seq<string> := ["government_", "economy_", "SYSTEM_SECURITY_", "system_security_"]

  /** `s` without the first prefix of `ps` it starts with. */
  function DropFirstPrefix(s: string, ps: seq<string>): (r: string)
    ensures |r| <= |s|
    ensures (forall i :: 0 <= i < |ps| ==> !StartsWith(s, ps[i])) ==> r == s
  {
    if ps == [] then s
    else if StartsWith(s, ps[0]) then s[|ps[0]|..]
    else DropFirstPrefix(s, ps[1..])
  }

  /** One leading `$` and one trailing `;` removed. */
  function Unwrap(s: string): (r: string)
    ensures |r| <= |s|
  {
    var s1 := if StartsWith(s, "$") then s[1..] else s;
    if EndsWith(s1, ";") then s1[..|s1| - 1] else s1
  }

  /** Underscores to spaces, then trimmed. */
  function Despace(s: string): (r: string)
    ensures '_' !in r
    ensures Trimmed(r)
  {
    var w := ReplaceChar(s, '_', ' ');
    assert '_' !in w;
    StripKeepsAbsent(w, '_');
    Strip(w)
  }

  /** `clean_token` on a string: trim, one leading `$`, one trailing `;`, one
      known prefix, underscores to spaces, trim, first character upper-cased. */
  function CleanStr(v: string): (r: string)
    ensures IsBlank(v) ==> r == []
    ensures '_' !in r
    ensures Trimmed(r)
    ensures r != [] ==> !IsLowerChar(r[0])
  {
    var s := Strip(v);
    StripEmptyIffBlank(v);
    if s == [] then s
    else
      var d := Despace(DropFirstPrefix(Unwrap(s), TokenPrefixes));
      var r := UpperFirst(d);
      UpperFirstKeepsAbsent(d, '_');
      assert d != [] ==> (IsSpace(r[0]) <==> IsSpace(d[0]));
      assert d != [] ==> r[|r| - 1] == d[|d| - 1] || |r| == 1;
      r
  }

  /** `clean_token(value)`: strings are cleaned, everything else passes through. */
  function CleanToken(v: Json): (r: Json)
    ensures !v.JStr? ==> r == v
    ensures v.JStr? ==> r.JStr? && '_' !in r.s
    ensures v.JStr? && IsBlank(v.s) ==> r == JStr("")
  {
    if v.JStr? then JStr(CleanStr(v.s)) else v
  }

  lemma UnwrapEconomy()
    ensures Unwrap("$economy_Extraction;") == "economy_Extraction"
  {
    var s := "$economy_Extraction;";
    assert StartsWith(s, "$") by { assert s[..1] == "$"; }
    assert s[1..] == "economy_Extraction;";
    var s1 := s[1..];
    assert EndsWith(s1, ";");
    assert s1[..|s1| - 1] == "economy_Extraction";
  }

  lemma DropPrefixEconomy()
    ensures DropFirstPrefix("economy_Extraction", TokenPrefixes) == "Extraction"
  {
    var e := "economy_Extraction";
    assert e[0] == 'e';
    assert !StartsWith(e, "government_");
    assert StartsWith(e, "economy_") by { assert e[..8] == "economy_"; }
    assert TokenPrefixes[1..][0] == "economy_";
    assert e[8..] == "Extraction";
  }

  /** A trimmed word without underscores passes `Despace` unchanged. */
  lemma DespacePlain(w: string)
    requires '_' !in w && Trimmed(w)
    ensures Despace(w) == w
  {
    ReplaceCharAbsent(w, '_', ' ');
    StripNoEdges(w);
  }

  lemma UpperFirstUpper(w: string)
    requires w != [] && !IsLowerChar(w[0])
    ensures UpperFirst(w) == w
  {
    assert [w[0]] + w[1..] == w;
  }

  /** The steps of `CleanStr` on a string that is not blank. */
  lemma CleanStrSteps(v: string)
    requires Strip(v) != []
    ensures CleanStr(v) == UpperFirst(Despace(DropFirstPrefix(Unwrap(Strip(v)), TokenPrefixes)))
  {
  }

  lemma ExtractionPlain()
    ensures UpperFirst(Despace("Extraction")) == "Extraction"
  {
    var x := "Extraction";
    assert Trimmed(x) by { assert x[0] == 'E' && x[9] == 'n'; }
    assert '_' !in x by { assert forall i | 0 <= i < |x| :: x[i] != '_'; }
    DespacePlain(x);
    UpperFirstUpper(x);
  }

  lemma EconomyTrimmed()
    ensures Strip("$economy_Extraction;") == "$economy_Extraction;"
  {
    var s := "$economy_Extraction;";
    assert Trimmed(s) by { assert s[0] == '$' && s[|s| - 1] == ';'; }
    StripNoEdges(s);
  }

  /** The example of the docstring: `$economy_Extraction;` becomes `Extraction`. */
  lemma CleanTokenEconomy()
    ensures CleanToken(JStr("$economy_Extraction;")) == JStr("Extraction")
  {
    EconomyTrimmed();
    CleanStrSteps("$economy_Extraction;");
    UnwrapEconomy();
    DropPrefixEconomy();
    ExtractionPlain();
  }

  lemma UnwrapSecurity()
    ensures Unwrap("$SYSTEM_SECURITY_low;") == "SYSTEM_SECURITY_low"
  {
    var s := "$SYSTEM_SECURITY_low;";
    assert StartsWith(s, "$") by { assert s[..1] == "$"; }
    assert s[1..] == "SYSTEM_SECURITY_low;";
    var s1 := s[1..];
    assert EndsWith(s1, ";");
    assert s1[..|s1| - 1] == "SYSTEM_SECURITY_low";
  }

  lemma DropPrefixSecurity()
    ensures DropFirstPrefix("SYSTEM_SECURITY_low", TokenPrefixes) == "low"
  {
    var e := "SYSTEM_SECURITY_low";
    assert e[0] == 'S';
    assert !StartsWith(e, "government_");
    assert !StartsWith(e, "economy_");
    assert StartsWith(e, "SYSTEM_SECURITY_") by { assert e[..16] == "SYSTEM_SECURITY_"; }
    assert TokenPrefixes[1..][1..][0] == "SYSTEM_SECURITY_";
    assert e[16..] == "low";
  }

  lemma LowCapitalised()
    ensures UpperFirst(Despace("low")) == "Low"
  {
    var x := "low";
    assert Trimmed(x) by { assert x[0] == 'l' && x[2] == 'w'; }
    assert '_' !in x by { assert forall i | 0 <= i < |x| :: x[i] != '_'; }
    DespacePlain(x);
    assert UpperChar('l') == 'L';
  }

  lemma SecurityTrimmed()
    ensures Strip("$SYSTEM_SECURITY_low;") == "$SYSTEM_SECURITY_low;"
  {
    var s := "$SYSTEM_SECURITY_low;";
    assert Trimmed(s) by { assert s[0] == '$' && s[|s| - 1] == ';'; }
    StripNoEdges(s);
  }

  /** The example of the docstring: `$SYSTEM_SECURITY_low;` becomes `Low`,
      the prefix dropped and the first letter upper-cased. */
  lemma CleanTokenSecurity()
    ensures CleanToken(JStr("$SYSTEM_SECURITY_low;")) == JStr("Low")
  {
    SecurityTrimmed();
    CleanStrSteps("$SYSTEM_SECURITY_low;");
    UnwrapSecurity();
    DropPrefixSecurity();
    LowCapitalised();
  }

  lemma UnwrapGovernment()
    ensures Unwrap("$government_Corporate;") == "government_Corporate"
  {
    var s := "$government_Corporate;";
    assert StartsWith(s, "$") by { assert s[..1] == "$"; }
    assert s[1..] == "government_Corporate;";
    var s1 := s[1..];
    assert EndsWith(s1, ";");
    assert s1[..|s1| - 1] == "government_Corporate";
  }

  lemma DropPrefixGovernment()
    ensures DropFirstPrefix("government_Corporate", TokenPrefixes) == "Corporate"
  {
    var e := "government_Corporate";
    assert StartsWith(e, "government_") by { assert e[..11] == "government_"; }
    assert e[11..] == "Corporate";
  }

  lemma CorporatePlain()
    ensures UpperFirst(Despace("Corporate")) == "Corporate"
  {
    var x := "Corporate";
    assert Trimmed(x) by { assert x[0] == 'C' && x[8] == 'e'; }
    assert '_' !in x by { assert forall i | 0 <= i < |x| :: x[i] != '_'; }
    DespacePlain(x);
    UpperFirstUpper(x);
  }

  lemma GovernmentTrimmed()
    ensures Strip("$government_Corporate;") == "$government_Corporate;"
  {
    var s := "$government_Corporate;";
    assert Trimmed(s) by { assert s[0] == '$' && s[|s| - 1] == ';'; }
    StripNoEdges(s);
  }

  /** The example of the docstring: `$government_Corporate;` becomes `Corporate`. */
  lemma CleanTokenGovernment()
    ensures CleanToken(JStr("$government_Corporate;")) == JStr("Corporate")
  {
    GovernmentTrimmed();
    CleanStrSteps("$government_Corporate;");
    UnwrapGovernment();
    DropPrefixGovernment();
    CorporatePlain();
  }

  /** `text(value, default)`. */
  function Text(v: Json, default: string): (r: string)
    ensures v == JNull ==> r == default
    ensures v.JStr? && IsBlank(v.s) ==> r == default
    ensures v.JStr? ==> r == default || (r != [] && '_' !in r && Trimmed(r))
    ensures !v.JStr? && v != JNull ==> r == Show(v)
  {
    if v == JNull then default
    else if v.JStr? then
      var c := CleanStr(v.s);
      StripNoEdges(c);
      if Strip(c) != [] then Strip(c) else default
    else Show(v)
  }

  /** `int_commas(value, default)`: `f"{int(value):,}"`, or the default when
      the value is None or `int()` rejects it. */
  function IntCommasText(v: Json, default: string): (r: string)
    ensures v == JNull ==> r == default
    ensures PyInt(v).Some? ==> DropCommas(r) == IntToStr(PyInt(v).value)
    ensures PyInt(v).None? ==> r == default
  {
    match PyInt(v)
    case None => default
    case Some(n) => IntCommasDigits(n); IntCommas(n)
  }

  /** `credits(value, default)`: the same figure followed by " cr". */
  function Credits(v: Json, default: string): (r: string)
    ensures PyInt(v).None? ==> r == default
    ensures PyInt(v).Some? ==> EndsWith(r, " cr") && DropCommas(r[..|r| - 3]) == IntToStr(PyInt(v).value)
  {
    match PyInt(v)
    case None => default
    case Some(n) =>
      var r := IntCommasText(v, default) + " cr";
      assert r[..|r| - 3] == IntCommasText(v, default);
      r
  }

  /** What `join_meta` keeps of one part: nothing when it is falsy or
      blank, else the trimmed `str(p)`. */
  function MetaPart(p: Json): (r: seq<string>)
    ensures |r| <= 1
    ensures r == [] <==> !Truthy(p) || Strip(Show(p)) == []
    ensures r != [] ==> r[0] == Strip(Show(p))
  {
    if Truthy(p) && Strip(Show(p)) != [] then [Strip(Show(p))] else []
  }

  /** The parts `join_meta` keeps, in order. */
  function MetaItems(parts: seq<Json>): (r: seq<string>)
    ensures |r| <= |parts|
  {
    if parts == [] then [] else MetaPart(parts[0]) + MetaItems(parts[1..])
  }

  lemma {:induction false} MetaItemsAppend(a: seq<Json>, b: seq<Json>)
    ensures MetaItems(a + b) == MetaItems(a) + MetaItems(b)
  {
    if a == [] {
      assert a + b == b;
    } else {
      assert (a + b)[1..] == a[1..] + b;
      MetaItemsAppend(a[1..], b);
    }
  }

  /** Every kept part is non-empty and trimmed. */
  lemma {:induction false} MetaItemsTrimmed(parts: seq<Json>)
    ensures forall i :: 0 <= i < |MetaItems(parts)| ==> MetaItems(parts)[i] != [] && Trimmed(MetaItems(parts)[i])
  {
    if parts != [] {
      MetaItemsTrimmed(parts[1..]);
      var h, r := MetaPart(parts[0]), MetaItems(parts[1..]);
      assert MetaItems(parts) == h + r;
      forall i | 0 <= i < |h + r| ensures (h + r)[i] != [] && Trimmed((h + r)[i]) {
        if i >= |h| { assert (h + r)[i] == r[i - |h|]; }
      }
    }
  }

  /** Falsy and blank parts contribute nothing. */
  lemma {:induction false} MetaItemsDropsBlank(parts: seq<Json>, i: nat)
    requires i < |parts|
    requires !Truthy(parts[i]) || Strip(Show(parts[i])) == []
    ensures MetaItems(parts) == MetaItems(parts[..i] + parts[i + 1..])
  {
    if i == 0 {
      assert MetaPart(parts[0]) == [];
      assert parts[..0] + parts[1..] == parts[1..];
    } else {
      MetaItemsDropsBlank(parts[1..], i - 1);
      assert parts[1..][..i - 1] + parts[1..][i..] == (parts[..i] + parts[i + 1..])[1..];
      assert (parts[..i] + parts[i + 1..])[0] == parts[0];
    }
  }

  /** One more part adds what that part keeps. */
  lemma MetaItemsSnoc(parts: seq<Json>, k: nat)
    requires k < |parts|
    ensures MetaItems(parts[..k + 1]) == MetaItems(parts[..k]) + MetaPart(parts[k])
  {
    assert parts[..k + 1] == parts[..k] + [parts[k]];
    MetaItemsAppend(parts[..k], [parts[k]]);
    assert MetaItems([parts[k]]) == MetaPart(parts[k]) + MetaItems([]);
  }

  /** `join_meta(*parts, sep=sep)`. */
  method JoinMeta(parts: seq<Json>, sep: string) returns (r: string)
    ensures r == Join(sep, MetaItems(parts))
  {
    var items: seq<string> := [];
    var k := 0;
    while k < |parts|
      invariant 0 <= k <= |parts|
      invariant items == MetaItems(parts[..k])
    {
      var p := parts[k];
      MetaItemsSnoc(parts, k);
      if Truthy(p) {
        var s := Strip(Show(p));
        if s != [] {
          items := items + [s];
        }
      }
      k := k + 1;
    }
    assert parts[..k] == parts;
    r := Join(sep, items);
  }
}
