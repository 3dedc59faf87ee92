/** The string primitives the Go and JavaScript sources lean on: trimming,
    ASCII case folding, splitting at one separator character, joining,
    prefix tests and decimal integer formatting and parsing. */
module Text {
  import opened Basics

  /** Characters Go's `unicode.IsSpace` accepts (and so `strings.TrimSpace` removes). */
  const GoSpace: set<char> := {
    '\t', '\n', '\U{000B}', '\U{000C}', '\r', ' ', '\U{0085}', '\U{00A0}', '\U{1680}',
    '\U{2000}', '\U{2001}', '\U{2002}', '\U{2003}', '\U{2004}', '\U{2005}', '\U{2006}',
    '\U{2007}', '\U{2008}', '\U{2009}', '\U{200A}', '\U{2028}', '\U{2029}', '\U{202F}',
    '\U{205F}', '\U{3000}'
  }

  /** Characters JavaScript's `String.prototype.trim` removes: white space and line terminators. */
  const JsSpace: set<char> := GoSpace - {'\U{0085}'} + {'\U{FEFF}'}

  // ---------------------------------------------------------------- trimming

  /** How many leading characters of `s` are in the cut set. */
  function Leading(s: string, cut: set<char>): (n: nat)
    ensures n <= |s|
  {
    if |s| > 0 && s[0] in cut then 1 + Leading(s[1..], cut) else 0
  }

  /** How many trailing characters of `s` are in the cut set. */
  function Trailing(s: string, cut: set<char>): (n: nat)
    ensures n <= |s|
  {
    if |s| > 0 && s[|s| - 1] in cut then 1 + Trailing(s[..|s| - 1], cut) else 0
  }

  function TrimLeft(s: string, cut: set<char>): (r: string)
  {
    s[Leading(s, cut)..]
  }

  function TrimRight(s: string, cut: set<char>): (r: string)
  {
    s[..|s| - Trailing(s, cut)]
  }

  /** Go's `strings.Trim(s, cutset)`: drop leading and trailing characters of the cut set. */
  function Trim(s: string, cut: set<char>): string {
    TrimRight(TrimLeft(s, cut), cut)
  }

  function TrimSpace(s: string): string {
    Trim(s, GoSpace)
  }

  function JsTrim(s: string): string {
    Trim(s, JsSpace)
  }

  /** TrimLeft stops at the first character outside the cut set, having removed only
      cut characters. */
  lemma {:induction false} TrimLeftShape(s: string, cut: set<char>)
    ensures var r := TrimLeft(s, cut);
      (r == [] || r[0] !in cut) && forall i :: 0 <= i < |s| - |r| ==> s[i] in cut
  {
    if |s| > 0 && s[0] in cut {
      TrimLeftShape(s[1..], cut);
    }
  }

  lemma {:induction false} TrimRightShape(s: string, cut: set<char>)
    ensures var r := TrimRight(s, cut);
      (r == [] || r[|r| - 1] !in cut) && forall i :: |r| <= i < |s| ==> s[i] in cut
  {
    if |s| > 0 && s[|s| - 1] in cut {
      TrimRightShape(s[..|s| - 1], cut);
    }
  }

  /** A trimmed string neither starts nor ends with a cut character. */
  lemma TrimEnds(s: string, cut: set<char>)
    ensures var r := Trim(s, cut); r == [] || (r[0] !in cut && r[|r| - 1] !in cut)
  {
    var l := TrimLeft(s, cut);
    TrimLeftShape(s, cut);
    TrimRightShape(l, cut);
  }

  lemma TrimIdempotent(s: string, cut: set<char>)
    ensures Trim(Trim(s, cut), cut) == Trim(s, cut)
  {
    TrimEnds(s, cut);
    TrimNoop(Trim(s, cut), cut);
  }

  /** Trimming a string that has no cut character at either end changes nothing. */
  lemma TrimNoop(s: string, cut: set<char>)
    requires s == [] || (s[0] !in cut && s[|s| - 1] !in cut)
    ensures Trim(s, cut) == s
  {
  }

  /** Trimming a lowercase string leaves it lowercase. */
  lemma TrimKeepsLower(s: string, cut: set<char>)
    requires IsLower(s)
    ensures IsLower(Trim(s, cut))
  {
    var l := TrimLeft(s, cut);
    var r := TrimRight(l, cut);
    assert forall i :: 0 <= i < |r| ==> r[i] == s[|s| - |l| + i];
  }

  // ---------------------------------------------------------------- case

  function LowerChar(c: char): (d: char)
    ensures 'A' <= c <= 'Z' ==> d as int == c as int + 32
    ensures !('A' <= c <= 'Z') ==> d == c
  {
    if 'A' <= c <= 'Z' then (c as int + 32) as char else c
  }

  /** ASCII lowercasing, as `strings.ToLower` and `toLowerCase` do on ASCII text. */
  function Lower(s: string): (r: string)
    ensures |r| == |s|
    ensures forall i {:trigger r[i]} :: 0 <= i < |s| ==> r[i] == LowerChar(s[i])
  {
    seq(|s|, i requires 0 <= i < |s| => LowerChar(s[i]))
  }

  predicate IsLower(s: string) {
    forall i :: 0 <= i < |s| ==> !('A' <= s[i] <= 'Z')
  }

  lemma LowerIsLower(s: string)
    ensures IsLower(Lower(s))
    ensures Lower(Lower(s)) == Lower(s)
  {
  }

  /** Go's `strings.EqualFold`, restricted to ASCII case folding. */
  predicate EqualFold(a: string, b: string) {
    Lower(a) == Lower(b)
  }

  // ---------------------------------------------------------------- search

  predicate HasSuffix(s: string, p: string) {
    |p| <= |s| && s[|s| - |p|..] == p
  }

  /** Whether `sub` occurs in `s` (Go's `strings.Contains`). */
  predicate Contains(s: string, sub: string)
    decreases |s|
  {
    sub <= s || (|s| > 0 && Contains(s[1..], sub))
  }

  lemma ContainsAt(s: string, sub: string, i: nat)
    requires i + |sub| <= |s| && s[i..i + |sub|] == sub
    ensures Contains(s, sub)
  {
    if i > 0 {
      assert s[1..][i - 1..i - 1 + |sub|] == sub;
      ContainsAt(s[1..], sub, i - 1);
    }
  }

  /** The first index of `c` in `s`, or -1. */
  function IndexOf(s: string, c: char): (i: int)
    ensures -1 <= i < |s|
    ensures i == -1 <==> c !in s
    ensures i >= 0 ==> s[i] == c && c !in s[..i]
  {
    if |s| == 0 then -1
    else if s[0] == c then 0
    else
      var j := IndexOf(s[1..], c);
      assert s[1..][..if j < 0 then 0 else j] == s[1..1 + (if j < 0 then 0 else j)];
      if j < 0 then -1 else j + 1
  }

  // ---------------------------------------------------------------- split and join

  /** `strings.Split(s, c)` / JavaScript `s.split(c)` for a one-character separator. */
  function Split(s: string, c: char): (parts: seq<string>)
    ensures |parts| >= 1
    ensures forall k :: 0 <= k < |parts| ==> c !in parts[k]
    decreases |s|
  {
    var i := IndexOf(s, c);
    if i < 0 then [s] else [s[..i]] + Split(s[i + 1..], c)
  }

  /** `strings.SplitN(s, c, n)` for n >= 1: at most n pieces, the last one unsplit. */
  function SplitN(s: string, c: char, n: nat): (parts: seq<string>)
    requires n >= 1
    ensures 1 <= |parts| <= n
    ensures forall k :: 0 <= k < |parts| - 1 ==> c !in parts[k]
    ensures |parts| < n ==> c !in parts[|parts| - 1]
    decreases n
  {
    if n == 1 then [s]
    else
      var i := IndexOf(s, c);
      if i < 0 then [s] else [s[..i]] + SplitN(s[i + 1..], c, n - 1)
  }

  function Join(parts: seq<string>, c: char): string
  {
    if |parts| == 0 then ""
    else if |parts| == 1 then parts[0]
    else parts[0] + [c] + Join(parts[1..], c)
  }

  /** The piece before the first separator (the whole string when there is none). */
  function FirstField(s: string, c: char): (r: string)
    ensures r <= s && c !in r
    ensures |r| < |s| ==> s[|r|] == c
  {
    Split(s, c)[0]
  }

  lemma {:induction false} JoinSplit(s: string, c: char)
    ensures Join(Split(s, c), c) == s
    decreases |s|
  {
    var i := IndexOf(s, c);
    if i >= 0 {
      var rest := s[i + 1..];
      var tail := Split(rest, c);
      JoinSplit(rest, c);
      JoinFront(s[..i], c, tail);
      assert s == s[..i] + [c] + rest;
    }
  }

  lemma JoinFront(a: string, c: char, parts: seq<string>)
    requires |parts| >= 1
    ensures Join([a] + parts, c) == a + [c] + Join(parts, c)
  {
    assert ([a] + parts)[1..] == parts;
  }

  lemma {:induction false} SplitJoin(parts: seq<string>, c: char)
    requires |parts| >= 1
    requires forall k :: 0 <= k < |parts| ==> c !in parts[k]
    ensures Split(Join(parts, c), c) == parts
  {
    if |parts| > 1 {
      var tail := parts[1..];
      SplitJoin(tail, c);
      JoinFront(parts[0], c, tail);
      assert parts == [parts[0]] + tail;
      SplitStep(parts[0], c, Join(tail, c));
    } else {
      assert Join(parts, c) == parts[0];
    }
  }

  /** One step of Split on a string whose first separator follows `a`. */
  lemma SplitStep(a: string, c: char, b: string)
    requires c !in a
    ensures Split(a + [c] + b, c) == [a] + Split(b, c)
  {
    var s := a + [c] + b;
    IndexOfAfter(a, c, b);
    assert s[|a| + 1..] == b;
  }

  /** SplitN undoes Join on exactly n pieces when the first n - 1 pieces are free of
      the separator; the last piece may contain it. */
  lemma {:induction false} SplitNJoin(parts: seq<string>, c: char)
    requires |parts| >= 1
    requires forall k :: 0 <= k < |parts| - 1 ==> c !in parts[k]
    ensures SplitN(Join(parts, c), c, |parts|) == parts
  {
    if |parts| > 1 {
      var tail := parts[1..];
      SplitNJoin(tail, c);
      JoinFront(parts[0], c, tail);
      assert parts == [parts[0]] + tail;
      IndexOfAfter(parts[0], c, Join(tail, c));
      SplitNStep(parts[0], c, Join(tail, c), |parts|);
    }
  }

  /** One step of SplitN on a string whose first separator follows `a`. */
  lemma SplitNStep(a: string, c: char, b: string, n: nat)
    requires n >= 2 && c !in a
    ensures SplitN(a + [c] + b, c, n) == [a] + SplitN(b, c, n - 1)
  {
    var s := a + [c] + b;
    IndexOfAfter(a, c, b);
    assert s[|a| + 1..] == b;
  }

  lemma IndexOfAfter(a: string, c: char, b: string)
    requires c !in a
    ensures IndexOf(a + [c] + b, c) == |a|
    ensures (a + [c] + b)[..|a|] == a
  {
    var s := a + [c] + b;
    assert s[|a|] == c;
  }

  // ---------------------------------------------------------------- integers

  predicate IsDigit(c: char) {
    '0' <= c <= '9'
  }

  predicate AllDigits(s: string) {
    forall i :: 0 <= i < |s| ==> IsDigit(s[i])
  }

  function DigitChar(d: nat): (c: char)
    requires d < 10
    ensures IsDigit(c) && c as int - '0' as int == d
  {
    ('0' as int + d) as char
  }

  /** Decimal digits of a natural number, without leading zeros. */
  function NatDigits(n: nat): (s: string)
    ensures |s| >= 1 && AllDigits(s)
    ensures s[0] == '0' ==> n == 0
  {
    if n < 10 then [DigitChar(n)] else NatDigits(n / 10) + [DigitChar(n % 10)]
  }

  /** Go's `strconv.Itoa` / `FormatInt(n, 10)` / `%d`. */
  function Itoa(n: int): (s: string)
    ensures |s| >= 1
    ensures n >= 0 ==> AllDigits(s)
    ensures n < 0 ==> s[0] == '-' && AllDigits(s[1..])
  {
    if n < 0 then "-" + NatDigits(-n) else NatDigits(n)
  }

  /** The value of a string of decimal digits. */
  function DigitsValue(s: string): nat
    requires AllDigits(s)
  {
    if |s| == 0 then 0 else DigitsValue(s[..|s| - 1]) * 10 + (s[|s| - 1] as int - '0' as int)
  }

  lemma {:induction false} DigitsValueOfNat(n: nat)
    ensures DigitsValue(NatDigits(n)) == n
  {
    if n >= 10 {
      var s := NatDigits(n);
      assert s[..|s| - 1] == NatDigits(n / 10);
      DigitsValueOfNat(n / 10);
    }
  }

  /** Go's `strconv.ParseInt(s, 10, 64)` (and `strconv.Atoi` on a 64-bit platform):
      an optional sign, one or more decimal digits and nothing else, within int64. */
  function ParseInt(s: string): (r: Option<int>)
    ensures r.Some? ==> InInt64(r.value)
    ensures r.Some? ==> |s| >= 1
  {
    var neg := |s| > 0 && s[0] == '-';
    var body := if |s| > 0 && (s[0] == '-' || s[0] == '+') then s[1..] else s;
    if |body| == 0 || !AllDigits(body) then None
    else
      var v: int := if neg then 0 - DigitsValue(body) else DigitsValue(body);
      if InInt64(v) then Some(v) else None
  }

  /** Formatting then parsing gives the number back. */
  lemma ParseItoa(n: int)
    requires InInt64(n)
    ensures ParseInt(Itoa(n)) == Some(n)
  {
    if n < 0 {
      DigitsValueOfNat(-n);
      ParseNegative(NatDigits(-n));
    } else {
      DigitsValueOfNat(n);
      ParseUnsigned(NatDigits(n));
    }
  }

  lemma ParseUnsigned(d: string)
    requires |d| >= 1 && AllDigits(d) && InInt64(DigitsValue(d))
    ensures ParseInt(d) == Some(DigitsValue(d))
  {
    assert IsDigit(d[0]);
  }

  lemma ParseNegative(d: string)
    requires |d| >= 1 && AllDigits(d) && InInt64(0 - DigitsValue(d))
    ensures ParseInt("-" + d) == Some(0 - DigitsValue(d))
  {
    assert ("-" + d)[1..] == d;
  }
}
