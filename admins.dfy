/** The admin allow-list (handlers/admin.go): a raw comma-separated list of emails,
    optionally wrapped in brackets and quoted, parsed into a set of normalised
    addresses, and the case- and whitespace-insensitive membership test. */
module Admins {
  import opened Basics
  import opened Text

  /** The characters stripped from both ends of each entry after lowercasing and trimming. */
  const Quotes: set<char> := {'"', '\'', ' '}

  /** The surrounding `[` … `]`, removed only when both are present. */
  function Unbracket(raw: string): (r: string)
    ensures |raw| >= 2 && raw[0] == '[' && raw[|raw| - 1] == ']' ==> r == raw[1..|raw| - 1]
    ensures !(|raw| >= 2 && raw[0] == '[' && raw[|raw| - 1] == ']') ==> r == raw
  {
    if |raw| >= 2 && raw[0] == '[' && raw[|raw| - 1] == ']' then raw[1..|raw| - 1] else raw
  }

  /** One list entry as stored. */
  function Normalize(p: string): string {
    Trim(Lower(TrimSpace(p)), Quotes)
  }

  /** The form an email is looked up in. */
  function Key(email: string): string {
    Lower(TrimSpace(email))
  }

  /** The fields the list splits into (none for a blank list). */
  function Fields(raw: string): seq<string> {
    var r := TrimSpace(raw);
    if r == "" then [] else Split(Unbracket(r), ',')
  }

  /** The set the entries of `parts` contribute, in the order the loop visits them. */
  function EntriesOf(parts: seq<string>): set<string> {
    if |parts| == 0 then {}
    else
      var e := Normalize(parts[|parts| - 1]);
      EntriesOf(parts[..|parts| - 1]) + (if e != "" then {e} else {})
  }

  /** Every field that normalises to something non-empty is an entry. */
  lemma {:induction false} EntriesHas(parts: seq<string>, k: nat)
    requires k < |parts| && Normalize(parts[k]) != ""
    ensures Normalize(parts[k]) in EntriesOf(parts)
  {
    var n := |parts| - 1;
    if k < n {
      var front := parts[..n];
      assert front[k] == parts[k];
      EntriesHas(front, k);
    }
  }

  /** Every entry comes from some field and is non-empty. */
  lemma {:induction false} EntriesFrom(parts: seq<string>, e: string) returns (k: nat)
    requires e in EntriesOf(parts)
    ensures k < |parts| && Normalize(parts[k]) == e && e != ""
  {
    var n := |parts| - 1;
    var front := parts[..n];
    if e in EntriesOf(front) {
      k := EntriesFrom(front, e);
      assert front[k] == parts[k];
    } else {
      k := n;
    }
  }

  lemma EntriesStep(parts: seq<string>, i: nat)
    requires i < |parts|
    ensures var e := Normalize(parts[i]);
      EntriesOf(parts[..i + 1]) == EntriesOf(parts[..i]) + (if e != "" then {e} else {})
  {
    assert parts[..i + 1][..i] == parts[..i];
  }

  function Entries(raw: string): set<string> {
    EntriesOf(Fields(raw))
  }

  /** The loop of `NewAdmins`: every field is lowercased and trimmed of white space,
      then of quotes and spaces, and kept when something is left. */
  method Collect(parts: seq<string>) returns (found: set<string>)
    ensures found == EntriesOf(parts)
  {
    found := {};
    for i := 0 to |parts|
      invariant found == EntriesOf(parts[..i])
    {
      var e := Lower(TrimSpace(parts[i]));
      e := Trim(e, Quotes);
      EntriesStep(parts, i);
      if e != "" {
        found := found + {e};
      }
    }
    assert parts[..|parts|] == parts;
  }

  class Admins {
    var members: set<string>

    /** `NewAdmins(raw)`: a blank list is empty; a bracketed one loses its brackets;
        the rest is split at commas and collected. */
    constructor (raw: string)
      ensures members == Entries(raw)
    {
      var parts: seq<string> := [];
      var r := TrimSpace(raw);
      if r != "" {
        r := Unbracket(r);
        parts := Split(r, ',');
      }
      var found := Collect(parts);
      members := found;
    }
  }

  /** The set behind a possibly nil `*Admins` (nil reads as empty). */
  function MembersOf(a: Admins?): set<string>
    reads a
  {
    if a == null then {} else a.members
  }

  /** `IsAdmin`: false for a nil list; otherwise whether the lowercased, trimmed email is listed. */
  predicate IsAdmin(a: Admins?, email: string)
    reads a
  {
    a != null && |a.members| > 0 && Key(email) in a.members
  }

  /** The lookup on the set alone, for code that has the set in hand. */
  predicate Listed(members: set<string>, email: string) {
    |members| > 0 && Key(email) in members
  }

  lemma IsAdminListed(a: Admins?, email: string)
    ensures IsAdmin(a, email) <==> Listed(MembersOf(a), email)
    ensures IsAdmin(a, email) <==> Key(email) in MembersOf(a)
  {
  }

  // ---------------------------------------------------------------- properties

  /** A blank or whitespace-only list admits nobody. */
  lemma BlankAdmitsNobody(raw: string, email: string)
    requires TrimSpace(raw) == ""
    ensures Entries(raw) == {}
    ensures !Listed(Entries(raw), email)
  {
  }

  /** Every stored entry is non-empty, lowercase and starts and ends with neither a
      quote nor a space. */
  lemma EntriesNormalised(raw: string, e: string)
    requires e in Entries(raw)
    ensures e != "" && IsLower(e)
    ensures e[0] !in Quotes && e[|e| - 1] !in Quotes
  {
    var parts := Fields(raw);
    var k := EntriesFrom(parts, e);
    NormalizedShape(parts[k]);
  }

  lemma NormalizedShape(p: string)
    ensures var e := Normalize(p); IsLower(e) && (e == "" || (e[0] !in Quotes && e[|e| - 1] !in Quotes))
  {
    var l := Lower(TrimSpace(p));
    LowerIsLower(TrimSpace(p));
    TrimKeepsLower(l, Quotes);
    TrimEnds(l, Quotes);
  }

  /** The check ignores case and surrounding whitespace. */
  lemma LookupInsensitive(members: set<string>, e1: string, e2: string)
    requires Lower(TrimSpace(e1)) == Lower(TrimSpace(e2))
    ensures Listed(members, e1) <==> Listed(members, e2)
  {
  }

  /** A plain address: non-empty, free of separators, brackets, quotes and white space. */
  predicate Plain(p: string) {
    |p| > 0 && forall i :: 0 <= i < |p| ==> p[i] !in GoSpace && p[i] !in Quotes && p[i] != ',' && p[i] != '[' && p[i] != ']'
  }

  lemma LowerKeepsPlainChars(p: string)
    requires Plain(p)
    ensures var l := Lower(p); |l| > 0 && l[0] !in Quotes && l[|l| - 1] !in Quotes
  {
    var l := Lower(p);
    assert l[0] == LowerChar(p[0]) && l[|l| - 1] == LowerChar(p[|p| - 1]);
  }

  lemma NormalizePlain(p: string)
    requires Plain(p)
    ensures Normalize(p) == Lower(p)
  {
    TrimNoop(p, GoSpace);
    LowerKeepsPlainChars(p);
    TrimNoop(Lower(p), Quotes);
  }

  /** A list of plain addresses splits back into its addresses, bracketed or not. */
  lemma PlainFields(parts: seq<string>)
    requires |parts| > 0 && forall k :: 0 <= k < |parts| ==> Plain(parts[k])
    ensures Fields(Join(parts, ',')) == parts
    ensures Fields("[" + Join(parts, ',') + "]") == parts
  {
    var raw := Join(parts, ',');
    assert Split(raw, ',') == parts by {
      forall k | 0 <= k < |parts| ensures ',' !in parts[k] {
        assert Plain(parts[k]);
      }
      SplitJoin(parts, ',');
    }
    assert |raw| > 0 && raw[0] != '[' && TrimSpace(raw) == raw by {
      JoinPlain(parts);
      TrimNoop(raw, GoSpace);
    }
    assert Fields(raw) == parts;
    var br := "[" + raw + "]";
    assert TrimSpace(br) == br && Unbracket(br) == raw by {
      BracketsNotSpace();
      assert br[0] == '[' && br[|br| - 1] == ']';
      TrimNoop(br, GoSpace);
      assert br[1..|br| - 1] == raw;
    }
  }

  lemma BracketsNotSpace()
    ensures '[' !in GoSpace && ']' !in GoSpace
  {
  }

  /** For a list of plain comma-separated emails, exactly the listed emails are
      admins, in any case and with any surrounding white space. */
  lemma PlainList(parts: seq<string>, email: string)
    requires |parts| > 0 && forall k :: 0 <= k < |parts| ==> Plain(parts[k])
    ensures Listed(Entries(Join(parts, ',')), email) <==>
      exists k :: 0 <= k < |parts| && Lower(parts[k]) == Key(email)
  {
    PlainFields(parts);
    PlainEntries(parts, Key(email));
  }

  /** Wrapping a plain list in brackets admits the same emails. */
  lemma PlainBracketed(parts: seq<string>)
    requires |parts| > 0 && forall k :: 0 <= k < |parts| ==> Plain(parts[k])
    ensures Entries("[" + Join(parts, ',') + "]") == Entries(Join(parts, ','))
  {
    PlainFields(parts);
  }

  lemma PlainEntries(parts: seq<string>, key: string)
    requires |parts| > 0 && forall k :: 0 <= k < |parts| ==> Plain(parts[k])
    ensures |EntriesOf(parts)| > 0
    ensures key in EntriesOf(parts) <==> exists k :: 0 <= k < |parts| && Lower(parts[k]) == key
  {
    PlainEntryHas(parts, Lower(parts[0]));
    if key in EntriesOf(parts) {
      PlainEntryFrom(parts, key);
    }
    if exists k :: 0 <= k < |parts| && Lower(parts[k]) == key {
      PlainEntryHas(parts, key);
    }
  }

  lemma PlainEntryFrom(parts: seq<string>, key: string)
    requires forall k :: 0 <= k < |parts| ==> Plain(parts[k])
    requires key in EntriesOf(parts)
    ensures exists k :: 0 <= k < |parts| && Lower(parts[k]) == key
  {
    var k := EntriesFrom(parts, key);
    NormalizePlain(parts[k]);
  }

  lemma PlainEntryHas(parts: seq<string>, key: string)
    requires forall k :: 0 <= k < |parts| ==> Plain(parts[k])
    requires exists k :: 0 <= k < |parts| && Lower(parts[k]) == key
    ensures key in EntriesOf(parts)
  {
    var k :| 0 <= k < |parts| && Lower(parts[k]) == key;
    NormalizePlain(parts[k]);
    LowerKeepsPlainChars(parts[k]);
    EntriesHas(parts, k);
  }

  /** The joined list of plain addresses is non-empty and has no white space or
      bracket anywhere. */
  lemma {:induction false} JoinPlain(parts: seq<string>)
    requires |parts| > 0 && forall k :: 0 <= k < |parts| ==> Plain(parts[k])
    ensures var r := Join(parts, ',');
      |r| > 0 && forall i :: 0 <= i < |r| ==> r[i] !in GoSpace && r[i] != '[' && r[i] != ']'
  {
    assert Plain(parts[0]);
    if |parts| > 1 {
      JoinPlain(parts[1..]);
      JoinFront(parts[0], ',', parts[1..]);
      assert parts == [parts[0]] + parts[1..];
    }
  }
}
