/** Python `str` operations, over ASCII, as the rest of the model uses them.
    Whitespace is the ASCII part of what `str.split()` and `str.strip()`
    treat as whitespace; letters are the ASCII letters. */
module PyText {

  /** Space, tab, line feed, vertical tab, form feed, carriage return and
      the four separators 0x1c to 0x1f. */
  predicate IsSpace(c: char) {
    c == ' ' || '\t' <= c <= '\r' || '\U{1c}' <= c <= '\U{1f}'
  }

  predicate IsUpperChar(c: char) { 'A' <= c <= 'Z' }
  predicate IsLowerChar(c: char) { 'a' <= c <= 'z' }
  predicate IsDigit(c: char) { '0' <= c <= '9' }
  predicate IsCased(c: char) { IsUpperChar(c) || IsLowerChar(c) }
  predicate IsAlnum(c: char) { IsCased(c) || IsDigit(c) }

  function LowerChar(c: char): (r: char)
    ensures !IsUpperChar(r)
    ensures IsCased(c) <==> IsCased(r)
    ensures !IsUpperChar(c) ==> r == c
  {
    if IsUpperChar(c) then (c as int + 32) as char else c
  }

  function UpperChar(c: char): (r: char)
    ensures !IsLowerChar(r)
    ensures IsCased(c) <==> IsCased(r)
    ensures !IsLowerChar(c) ==> r == c
  {
    if IsLowerChar(c) then (c as int - 32) as char else c
  }

  /** `s.lower()` */
  function Lower(s: string): (r: string)
    ensures |r| == |s|
  {
    if s == [] then [] else [LowerChar(s[0])] + Lower(s[1..])
  }

  /** `s.lower()` works character by character. */
  lemma {:induction false} LowerAt(s: string)
    ensures forall i :: 0 <= i < |s| ==> Lower(s)[i] == LowerChar(s[i])
  {
    if s != [] {
      LowerAt(s[1..]);
      assert forall i :: 1 <= i < |s| ==> Lower(s)[i] == Lower(s[1..])[i - 1];
    }
  }

  /** `s.upper()` */
  function Upper(s: string): (r: string)
    ensures |r| == |s|
  {
    if s == [] then [] else [UpperChar(s[0])] + Upper(s[1..])
  }

  /** `s.title()`: a cased character is upper-cased when the character before
      it is not cased, lower-cased otherwise; `prevCased` carries that state. */
  function TitleFrom(s: string, prevCased: bool): (r: string)
    ensures |r| == |s|
  {
    if s == [] then []
    else if IsCased(s[0]) then
      [if prevCased then LowerChar(s[0]) else UpperChar(s[0])] + TitleFrom(s[1..], true)
    else [s[0]] + TitleFrom(s[1..], false)
  }

  function Title(s: string): (r: string)
    ensures |r| == |s|
  {
    TitleFrom(s, false)
  }

  /** `s[:1].upper() + s[1:]` */
  function UpperFirst(s: string): (r: string)
    ensures |r| == |s|
    ensures s != [] ==> r[0] == UpperChar(s[0])
    ensures forall i :: 1 <= i < |s| ==> r[i] == s[i]
  {
    if s == [] then [] else [UpperChar(s[0])] + s[1..]
  }

  /** Upper-casing the first character adds no character that is not a letter. */
  lemma UpperFirstKeepsAbsent(s: string, c: char)
    requires c !in s && !IsCased(c)
    ensures c !in UpperFirst(s)
  {
  }

  /** `s.isupper()`: some cased character and no lower-case one. */
  predicate IsUpper(s: string) {
    (exists i :: 0 <= i < |s| && IsUpperChar(s[i]))
    && (forall i :: 0 <= i < |s| ==> !IsLowerChar(s[i]))
  }

  predicate StartsWith(s: string, p: string) {
    |p| <= |s| && s[..|p|] == p
  }

  predicate EndsWith(s: string, p: string) {
    |p| <= |s| && s[|s| - |p|..] == p
  }

  /** `sub` occurs in `s` at index `j`. */
  predicate OccursAt(s: string, sub: string, j: int) {
    0 <= j <= |s| - |sub| && s[j..j + |sub|] == sub
  }

  /** `sub in s` */
  predicate Contains(s: string, sub: string) {
    exists j | 0 <= j <= |s| :: OccursAt(s, sub, j)
  }

  /** First index of `sub` in `s` at or after `i`, or -1: `s.find(sub, i)`. */
  function FindFrom(s: string, sub: string, i: nat): (r: int)
    requires i <= |s|
    ensures r == -1 || (i <= r && OccursAt(s, sub, r))
    ensures r >= 0 ==> forall j :: i <= j < r ==> !OccursAt(s, sub, j)
    ensures r == -1 ==> forall j :: i <= j ==> !OccursAt(s, sub, j)
    decreases |s| - i
  {
    if i + |sub| > |s| then -1
    else if s[i..i + |sub|] == sub then i
    else FindFrom(s, sub, i + 1)
  }

  /** `s.find(sub)` */
  function Find(s: string, sub: string): (r: int)
    ensures r == -1 || OccursAt(s, sub, r)
    ensures r >= 0 ==> forall j :: 0 <= j < r ==> !OccursAt(s, sub, j)
    ensures r == -1 <==> !Contains(s, sub)
  {
    FindFrom(s, sub, 0)
  }

  function LStrip(s: string): (r: string)
    ensures |r| <= |s|
    ensures r == [] || !IsSpace(r[0])
  {
    if |s| > 0 && IsSpace(s[0]) then LStrip(s[1..]) else s
  }

  /** `s.lstrip()` is a suffix of `s` after a run of whitespace. */
  lemma {:induction false} LStripSuffix(s: string)
    ensures LStrip(s) == s[|s| - |LStrip(s)|..]
    ensures forall i :: 0 <= i < |s| - |LStrip(s)| ==> IsSpace(s[i])
  {
    if |s| > 0 && IsSpace(s[0]) {
      LStripSuffix(s[1..]);
    }
  }

  function RStrip(s: string): (r: string)
    ensures |r| <= |s|
    ensures r == [] || !IsSpace(r[|r| - 1])
  {
    if |s| > 0 && IsSpace(s[|s| - 1]) then RStrip(s[..|s| - 1]) else s
  }

  /** `s.rstrip()` is a prefix of `s` before a run of whitespace. */
  lemma {:induction false} RStripPrefix(s: string)
    ensures RStrip(s) == s[..|RStrip(s)|]
    ensures forall i :: |RStrip(s)| <= i < |s| ==> IsSpace(s[i])
  {
    if |s| > 0 && IsSpace(s[|s| - 1]) {
      RStripPrefix(s[..|s| - 1]);
    }
  }

  /** No whitespace at either end. */
  predicate Trimmed(s: string) {
    s == [] || (!IsSpace(s[0]) && !IsSpace(s[|s| - 1]))
  }

  /** `s.strip()` */
  function Strip(s: string): (r: string)
    ensures |r| <= |s|
    ensures Trimmed(r)
  {
    RStripPrefix(LStrip(s));
    RStrip(LStrip(s))
  }

  /** A character absent from `s` is absent from `s.strip()`. */
  lemma StripKeepsAbsent(s: string, c: char)
    requires c !in s
    ensures c !in Strip(s)
  {
    LStripSuffix(s);
    RStripPrefix(LStrip(s));
  }

  predicate IsBlank(s: string) {
    forall i :: 0 <= i < |s| ==> IsSpace(s[i])
  }

  lemma {:induction false} LStripBlank(s: string)
    ensures LStrip(s) == [] <==> IsBlank(s)
  {
    LStripSuffix(s);
    if IsBlank(s) && s != [] {
      assert IsBlank(s[1..]) by {
        forall i | 0 <= i < |s[1..]| ensures IsSpace(s[1..][i]) { assert s[1..][i] == s[i + 1]; }
      }
      LStripBlank(s[1..]);
    }
  }

  lemma StripEmptyIffBlank(s: string)
    ensures Strip(s) == [] <==> IsBlank(s)
  {
    var l := LStrip(s);
    if IsBlank(s) {
      LStripBlank(s);
    } else {
      LStripBlank(s);
      assert l != [] && !IsSpace(l[0]);
      RStripPrefix(l);
      assert RStrip(l) != [];
    }
  }

  lemma StripNoEdges(s: string)
    requires Trimmed(s)
    ensures Strip(s) == s
  {
  }

  /** Stripping twice is stripping once. */
  lemma StripIdempotent(s: string)
    ensures Strip(Strip(s)) == Strip(s)
  {
    StripNoEdges(Strip(s));
  }

  /** The longest prefix of `s` without whitespace. */
  function Word(s: string): (r: string)
    ensures |r| <= |s|
  {
    if s == [] || IsSpace(s[0]) then [] else [s[0]] + Word(s[1..])
  }

  /** The word is a prefix of `s`, ended by whitespace or by the end of `s`. */
  lemma {:induction false} WordPrefix(s: string)
    ensures Word(s) == s[..|Word(s)|]
    ensures |Word(s)| < |s| ==> IsSpace(s[|Word(s)|])
  {
    if s != [] && !IsSpace(s[0]) {
      WordPrefix(s[1..]);
    }
  }

  predicate IsWord(w: string) {
    w != [] && forall i :: 0 <= i < |w| ==> !IsSpace(w[i])
  }

  /** A word taken from a string that does not start with whitespace is a word. */
  lemma {:induction false} WordIsWord(s: string)
    requires s != [] && !IsSpace(s[0])
    ensures IsWord(Word(s))
  {
    var w := Word(s);
    if s[1..] != [] && !IsSpace(s[1..][0]) {
      WordIsWord(s[1..]);
    }
    assert w == [s[0]] + Word(s[1..]);
    forall i | 0 <= i < |w| ensures !IsSpace(w[i]) {
      if i > 0 {
        assert w[i] == Word(s[1..])[i - 1];
      }
    }
  }

  /** `s.split()`: the maximal runs of non-whitespace, in order. */
  function SplitWs(s: string): (r: seq<string>)
    decreases |s|
  {
    if s == [] then []
    else if IsSpace(s[0]) then SplitWs(s[1..])
    else
      var w := Word(s);
      [w] + SplitWs(s[|w|..])
  }

  /** Every part of `s.split()` is a non-empty run without whitespace. */
  lemma {:induction false} SplitWsWords(s: string)
    ensures forall i :: 0 <= i < |SplitWs(s)| ==> IsWord(SplitWs(s)[i])
    decreases |s|
  {
    if s == [] {
    } else if IsSpace(s[0]) {
      SplitWsWords(s[1..]);
    } else {
      var w := Word(s);
      WordIsWord(s);
      SplitWsWords(s[|w|..]);
      assert SplitWs(s) == [w] + SplitWs(s[|w|..]);
    }
  }

  /** `sep.join(parts)` */
  function Join(sep: string, parts: seq<string>): (r: string)
    ensures parts == [] ==> r == []
    ensures |parts| == 1 ==> r == parts[0]
  {
    if |parts| == 0 then []
    else if |parts| == 1 then parts[0]
    else parts[0] + sep + Join(sep, parts[1..])
  }

  /** `" ".join(s.split())`: whitespace runs collapsed to one space, ends trimmed. */
  function Collapse(s: string): string {
    Join(" ", SplitWs(s))
  }

  lemma {:induction false} WordOfWordPrefix(w: string, rest: string)
    requires IsWord(w)
    requires rest == [] || IsSpace(rest[0])
    ensures Word(w + rest) == w
  {
    if |w| > 1 {
      assert (w + rest)[1..] == w[1..] + rest;
      WordOfWordPrefix(w[1..], rest);
    } else {
      assert (w + rest)[1..] == rest;
    }
  }

  /** Splitting a space-joined list of words gives the words back. */
  lemma {:induction false} SplitJoin(ws: seq<string>)
    requires forall i :: 0 <= i < |ws| ==> IsWord(ws[i])
    ensures SplitWs(Join(" ", ws)) == ws
  {
    if |ws| == 0 {
    } else if |ws| == 1 {
      WordOfWordPrefix(ws[0], []);
      assert ws[0] == ws[0] + [];
      var s := ws[0];
      assert s[|Word(s)|..] == [];
    } else {
      var rest := Join(" ", ws[1..]);
      var s := ws[0] + " " + rest;
      assert s == ws[0] + (" " + rest);
      WordOfWordPrefix(ws[0], " " + rest);
      assert s[|ws[0]|..] == " " + rest;
      assert (" " + rest)[1..] == rest;
      SplitJoin(ws[1..]);
      assert SplitWs(s) == [ws[0]] + SplitWs(s[|ws[0]|..]);
    }
  }

  /** Words joined by single spaces have no whitespace at either end. */
  lemma {:induction false} JoinWordsTrimmed(ws: seq<string>)
    requires forall i :: 0 <= i < |ws| ==> IsWord(ws[i])
    ensures Trimmed(Join(" ", ws)) && (ws != [] ==> Join(" ", ws) != [])
  {
    if |ws| > 1 {
      JoinWordsTrimmed(ws[1..]);
      var rest := Join(" ", ws[1..]);
      var s := ws[0] + " " + rest;
      assert s[0] == ws[0][0];
      assert s[|s| - 1] == rest[|rest| - 1];
    }
  }

  /** A collapsed string has no whitespace at either end. */
  lemma CollapseTrimmed(s: string)
    ensures Trimmed(Collapse(s))
  {
    SplitWsWords(s);
    JoinWordsTrimmed(SplitWs(s));
  }

  /** `_norm_text` style collapsing is idempotent. */
  lemma CollapseIdempotent(s: string)
    ensures Collapse(Collapse(s)) == Collapse(s)
  {
    SplitWsWords(s);
    SplitJoin(SplitWs(s));
  }

  /** Replace every occurrence of character `a` by `b`. */
  function ReplaceChar(s: string, a: char, b: char): (r: string)
    ensures |r| == |s|
    ensures forall i :: 0 <= i < |s| ==> r[i] == (if s[i] == a then b else s[i])
  {
    if s == [] then [] else [if s[0] == a then b else s[0]] + ReplaceChar(s[1..], a, b)
  }

  /** Replacing a character the text does not hold changes nothing. */
  lemma ReplaceCharAbsent(s: string, a: char, b: char)
    requires a !in s
    ensures ReplaceChar(s, a, b) == s
  {
  }

  /** `s.split(sep, 1)` for a separator that occurs in `s`. */
  function SplitOnce(s: string, sep: string): (r: (string, string))
    requires sep != [] && Contains(s, sep)
    ensures r.0 + sep + r.1 == s
    ensures !Contains(r.0, sep)
  {
    var i := Find(s, sep);
    assert s == s[..i] + s[i..i + |sep|] + s[i + |sep|..];
    assert !Contains(s[..i], sep) by {
      forall j | OccursAt(s[..i], sep, j) ensures false {
        assert s[..i][j..j + |sep|] == s[j..j + |sep|];
        assert OccursAt(s, sep, j);
      }
    }
    (s[..i], s[i + |sep|..])
  }

  /** `s.split(c)` for a one-character separator: Python's rules, so two
      adjacent separators give an empty part and `""` gives `[""]`. */
  function SplitChar(s: string, c: char): (r: seq<string>)
    ensures |r| >= 1
    ensures forall i :: 0 <= i < |r| ==> c !in r[i]
    decreases |s|
  {
    if c in s then
      var i := FirstIndex(s, c);
      [s[..i]] + SplitChar(s[i + 1..], c)
    else [s]
  }

  function FirstIndex(s: string, c: char): (i: nat)
    requires c in s
    ensures i < |s| && s[i] == c && c !in s[..i]
  {
    if s[0] == c then 0 else 1 + FirstIndex(s[1..], c)
  }

  function DigitChar(d: nat): (c: char)
    requires d < 10
    ensures IsDigit(c)
  {
    ('0' as int + d) as char
  }

  /** Decimal digits of a natural number, without leading zeros. */
  function NatToStr(n: nat): (r: string)
    ensures r != []
    ensures forall i :: 0 <= i < |r| ==> IsDigit(r[i])
    decreases n
  {
    if n < 10 then [DigitChar(n)] else NatToStr(n / 10) + [DigitChar(n % 10)]
  }

  /** `str(n)` of an int. */
  function IntToStr(n: int): string {
    if n < 0 then "-" + NatToStr(-n) else NatToStr(n)
  }

  /** A digit string with a comma before every group of three from the right. */
  function GroupThousands(d: string): (r: string)
    decreases |d|
  {
    if |d| <= 3 then d else GroupThousands(d[..|d| - 3]) + "," + d[|d| - 3..]
  }

  /** `f"{n:,}"` */
  function IntCommas(n: int): string {
    if n < 0 then "-" + GroupThousands(NatToStr(-n)) else GroupThousands(NatToStr(n))
  }

  function DropCommas(s: string): (r: string) {
    if s == [] then [] else (if s[0] == ',' then [] else [s[0]]) + DropCommas(s[1..])
  }

  lemma {:induction false} DropCommasAppend(a: string, b: string)
    ensures DropCommas(a + b) == DropCommas(a) + DropCommas(b)
  {
    if a == [] {
      assert a + b == b;
    } else {
      assert (a + b)[1..] == a[1..] + b;
      DropCommasAppend(a[1..], b);
    }
  }

  lemma {:induction false} DropCommasDigits(d: string)
    requires forall i :: 0 <= i < |d| ==> IsDigit(d[i])
    ensures DropCommas(d) == d
  {
    if d != [] {
      DropCommasDigits(d[1..]);
    }
  }

  /** Grouping digits only inserts commas: taking them out gives the digits back. */
  lemma {:induction false} GroupThousandsDigits(d: string)
    requires forall i :: 0 <= i < |d| ==> IsDigit(d[i])
    ensures DropCommas(GroupThousands(d)) == d
    decreases |d|
  {
    if |d| <= 3 {
      DropCommasDigits(d);
    } else {
      var hi, lo := d[..|d| - 3], d[|d| - 3..];
      GroupThousandsDigits(hi);
      DropCommasAppend(GroupThousands(hi) + ",", lo);
      DropCommasAppend(GroupThousands(hi), ",");
      assert DropCommas(",") == [];
      DropCommasDigits(lo);
      assert hi + lo == d;
    }
  }

  /** Every group after the first has exactly three digits: the last four
      characters of a grouped number of four or more digits are a comma and three digits. */
  lemma GroupThousandsTail(d: string)
    requires |d| > 3
    ensures var g := GroupThousands(d); |g| >= 4 && g[|g| - 4] == ',' && g[|g| - 3..] == d[|d| - 3..]
  {
  }

  /** `f"{n:,}"` with the commas taken out is `str(n)`. */
  lemma IntCommasDigits(n: int)
    ensures DropCommas(IntCommas(n)) == IntToStr(n)
  {
    if n < 0 {
      GroupThousandsDigits(NatToStr(-n));
      DropCommasAppend("-", GroupThousands(NatToStr(-n)));
    } else {
      GroupThousandsDigits(NatToStr(n));
    }
  }

  /** Python string order (code point by code point). */
  predicate StrLess(a: string, b: string)
    decreases |a|
  {
    if a == [] then b != []
    else if b == [] then false
    else if a[0] != b[0] then a[0] < b[0]
    else StrLess(a[1..], b[1..])
  }

  lemma {:induction false} StrLessIrreflexive(a: string)
    ensures !StrLess(a, a)
  {
    if a != [] { StrLessIrreflexive(a[1..]); }
  }

  lemma {:induction false} StrLessTransitive(a: string, b: string, c: string)
    requires StrLess(a, b) && StrLess(b, c)
    ensures StrLess(a, c)
    decreases |a|
  {
    if a != [] && b != [] && c != [] && a[0] == b[0] && b[0] == c[0] {
      StrLessTransitive(a[1..], b[1..], c[1..]);
    }
  }

  lemma {:induction false} StrLessTotal(a: string, b: string)
    requires a != b
    ensures StrLess(a, b) || StrLess(b, a)
    decreases |a|
  {
    if a != [] && b != [] && a[0] == b[0] {
      assert a == [a[0]] + a[1..] && b == [b[0]] + b[1..];
      StrLessTotal(a[1..], b[1..]);
    }
  }

  /** Strictly ascending in code-point order: sorted, each string once. */
  predicate Ascending(xs: seq<string>) {
    forall i, j :: 0 <= i < j < |xs| ==> StrLess(xs[i], xs[j])
  }

  /** `x` put into its place in an ascending list, unless it is already there. */
  function InsertAscending(x: string, xs: seq<string>): (r: seq<string>)
    requires Ascending(xs)
    ensures Ascending(r)
    ensures forall y :: y in r <==> y in xs || y == x
    decreases |xs|
  {
    if xs == [] then [x]
    else if x == xs[0] then xs
    else if StrLess(x, xs[0]) then
      assert forall j :: 0 < j < |xs| ==> StrLess(x, xs[j]) by {
        forall j | 0 < j < |xs| ensures StrLess(x, xs[j]) {
          StrLessTransitive(x, xs[0], xs[j]);
        }
      }
      [x] + xs
    else
      var tail := InsertAscending(x, xs[1..]);
      StrLessTotal(x, xs[0]);
      assert forall y :: y in tail ==> StrLess(xs[0], y) by {
        forall y | y in tail ensures StrLess(xs[0], y) {
          if y != x {
            var j :| 0 <= j < |xs[1..]| && xs[1..][j] == y;
            assert xs[j + 1] == y;
          }
        }
      }
      [xs[0]] + tail
  }

  /** `sorted(set(xs))` for strings. */
  function SortedSet(xs: seq<string>): (r: seq<string>)
    ensures Ascending(r)
    ensures forall y :: y in r <==> y in xs
  {
    if xs == [] then []
    else
      var n := |xs| - 1;
      var r := InsertAscending(xs[n], SortedSet(xs[..n]));
      assert xs == xs[..n] + [xs[n]];
      r
  }
}
