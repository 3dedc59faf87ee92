/** The leaderboard (handlers/leaderboard.go and the startup listing in main.go):
    the store's user records decoded as leaderboard entries, the board ordered by
    points then time, ranks given to non-admins only, and the JSON API's three
    orderings. Go's map iteration order is an input: the handlers take the order in
    which `range` visits the rows. */
module Leaderboard {
  import opened Basics
  import opened Json
  import opened Text
  import opened Sorting
  import opened Store
  import Admins

  datatype Entry = Entry(email: string, name: string, points: int, time: real)

  /** `json.Unmarshal` into the `leaderboard` struct: text that does not parse, a
      non-object, or a member of the wrong type is an error (the entry is skipped);
      `null` and absent members leave zero values. */
  function DecodeEntry(text: string, codec: Codec): Option<Entry> {
    match codec.decode(text)
    case None => None
    case Some(JNull) => Some(Entry("", "", 0, 0.0))
    case Some(JObj(m)) =>
      var email := StrMember(m, "email");
      var name := StrMember(m, "name");
      var points := IntMember(m, "points");
      var time := FloatMember(m, "time");
      if email.None? || name.None? || points.None? || time.None? then None
      else Some(Entry(email.value, name.value, points.value, time.value))
    case Some(_) => None
  }

  /** `json.Marshal` of an entry. */
  function EntryJson(e: Entry): Json {
    JObj(map["email" := JStr(e.email), "name" := JStr(e.name), "points" := JNum(e.points as real), "time" := JNum(e.time)])
  }

  /** What the decoding loop keeps, in visiting order. */
  function Decoded(values: seq<string>, codec: Codec): (es: seq<Entry>)
    ensures |es| <= |values|
  {
    if |values| == 0 then []
    else
      var front := Decoded(values[..|values| - 1], codec);
      match DecodeEntry(values[|values| - 1], codec)
      case Some(e) => front + [e]
      case None => front
  }

  function Values(data: map<string, string>, ks: seq<string>): (vs: seq<string>)
    requires Enumerates(data, ks)
    ensures |vs| == |ks| && forall i :: 0 <= i < |ks| ==> vs[i] == data[ks[i]]
  {
    seq(|ks|, i requires 0 <= i < |ks| && ks[i] in data => data[ks[i]])
  }

  /** The range-and-decode loop of the three listings. */
  method DecodeAll(values: seq<string>, codec: Codec) returns (entries: seq<Entry>)
    ensures entries == Decoded(values, codec)
  {
    entries := [];
    for i := 0 to |values|
      invariant entries == Decoded(values[..i], codec)
    {
      assert values[..i + 1][..i] == values[..i];
      var e := DecodeEntry(values[i], codec);
      if e.Some? {
        entries := entries + [e.value];
      }
    }
    assert values[..|values|] == values;
  }

  // ---------------------------------------------------------------- orderings

  /** The board order of the HTML page and of the startup listing: more points
      first, and on equal points the earlier time first. */
  predicate BoardLess(a: Entry, b: Entry) {
    if a.points == b.points then a.time < b.time else a.points > b.points
  }

  /** The API's `order` parameter: ascending only for `asc` in any case. */
  function Ascending(order: string): (asc: bool)
    ensures asc <==> Lower(order) == "asc"
  {
    var o := Lower(order);
    var o := if o != "asc" && o != "desc" then "desc" else o;
    o == "asc"
  }

  /** The API comparator for `sort` = `time`, `user`, or anything else. */
  predicate ApiLess(sortBy: string, asc: bool, a: Entry, b: Entry) {
    if sortBy == "time" then
      if a.time == b.time then a.points > b.points
      else if asc then a.time < b.time else a.time > b.time
    else if sortBy == "user" then
      if asc then LexLess(Lower(a.name), Lower(b.name)) else LexLess(Lower(b.name), Lower(a.name))
    else
      if a.points == b.points then
        (if asc then a.time < b.time else a.time > b.time)
      else if asc then a.points < b.points else a.points > b.points
  }

  /** Lexicographic order on pairs of numbers; every numeric comparator above is this
      order on a pair of keys. */
  predicate PairLess(x: (real, real), y: (real, real)) {
    x.0 < y.0 || (x.0 == y.0 && x.1 < y.1)
  }

  lemma PairStrictWeak<T>(s: seq<T>, less: (T, T) -> bool, key: T -> (real, real))
    requires forall a, b :: less(a, b) == PairLess(key(a), key(b))
    ensures StrictWeakOn(s, less)
  {
  }

  lemma BoardStrictWeak(s: seq<Entry>)
    ensures StrictWeakOn(s, BoardLess)
  {
    PairStrictWeak(s, BoardLess, (e: Entry) => (-(e.points as real), e.time));
  }

  lemma ApiStrictWeak(s: seq<Entry>, sortBy: string, asc: bool)
    ensures StrictWeakOn(s, (a, b) => ApiLess(sortBy, asc, a, b))
  {
    if sortBy == "time" {
      TimeStrictWeak(s, asc);
    } else if sortBy == "user" {
      UserStrictWeak(s, asc);
    } else {
      var sign := if asc then 1.0 else -1.0;
      PairStrictWeak(s, (a, b) => ApiLess(sortBy, asc, a, b), (e: Entry) => (sign * (e.points as real), sign * e.time));
    }
  }

  lemma TimeStrictWeak(s: seq<Entry>, asc: bool)
    ensures StrictWeakOn(s, (a, b) => ApiLess("time", asc, a, b))
  {
    var sign := if asc then 1.0 else -1.0;
    PairStrictWeak(s, (a, b) => ApiLess("time", asc, a, b), (e: Entry) => (sign * e.time, -(e.points as real)));
  }

  lemma UserStrictWeak(s: seq<Entry>, asc: bool)
    ensures StrictWeakOn(s, (a, b) => ApiLess("user", asc, a, b))
  {
    var less := (a, b) => ApiLess("user", asc, a, b);
    forall i | 0 <= i < |s| ensures !less(s[i], s[i]) {
      LexIrreflexive(Lower(s[i].name));
    }
    forall i, j, k | 0 <= i < |s| && 0 <= j < |s| && 0 <= k < |s|
      ensures less(s[i], s[k]) ==> less(s[i], s[j]) || less(s[j], s[k])
      ensures less(s[i], s[j]) && less(s[j], s[k]) ==> less(s[i], s[k])
    {
      var x, y, z := Lower(s[i].name), Lower(s[j].name), Lower(s[k].name);
      if asc {
        if LexLess(x, z) {
          LexNegTransitive(x, y, z);
        }
        if LexLess(x, y) && LexLess(y, z) {
          LexTransitive(x, y, z);
        }
      } else {
        if LexLess(z, x) {
          LexNegTransitive(z, y, x);
        }
        if LexLess(y, x) && LexLess(z, y) {
          LexTransitive(z, y, x);
        }
      }
    }
  }

  /** `sort.Slice` with the board comparator. */
  function Board(entries: seq<Entry>): (r: seq<Entry>)
    ensures multiset(r) == multiset(entries)
    ensures SortedBy(r, BoardLess)
  {
    BoardStrictWeak(entries);
    SortBy(entries, BoardLess)
  }

  /** The board runs by points descending and, on equal points, by time ascending. */
  lemma BoardOrdered(entries: seq<Entry>, i: nat, j: nat)
    requires i < j < |Board(entries)|
    ensures var r := Board(entries);
      r[i].points > r[j].points || (r[i].points == r[j].points && r[i].time <= r[j].time)
  {
    var r := Board(entries);
    assert !BoardLess(r[j], r[i]);
  }

  // ---------------------------------------------------------------- the HTML board

  /** `template.HTMLEscapeString`. */
  function EscapeHTML(s: string): (r: string) {
    if |s| == 0 then ""
    else EscapeHTML(s[..|s| - 1]) + EscapeChar(s[|s| - 1])
  }

  function EscapeChar(c: char): string {
    if c == '\0' then "�"
    else if c == '"' then "&#34;"
    else if c == '\'' then "&#39;"
    else if c == '&' then "&amp;"
    else if c == '<' then "&lt;"
    else if c == '>' then "&gt;"
    else [c]
  }

  /** Escaped text holds no markup characters. */
  lemma {:induction false} EscapedIsInert(s: string)
    ensures var r := EscapeHTML(s); '<' !in r && '>' !in r && '"' !in r && '\'' !in r && '\0' !in r
  {
    if |s| > 0 {
      var front := EscapeHTML(s[..|s| - 1]);
      var last := EscapeChar(s[|s| - 1]);
      EscapedIsInert(s[..|s| - 1]);
      EscapeCharInert(s[|s| - 1]);
      assert EscapeHTML(s) == front + last;
    }
  }

  lemma EscapeCharInert(c: char)
    ensures var r := EscapeChar(c); '<' !in r && '>' !in r && '"' !in r && '\'' !in r && '\0' !in r
  {
  }

  /** Text with no character to escape is unchanged. */
  lemma {:induction false} EscapeInert(s: string)
    requires forall i :: 0 <= i < |s| ==> s[i] !in {'\0', '"', '\'', '&', '<', '>'}
    ensures EscapeHTML(s) == s
  {
    if |s| > 0 {
      EscapeInert(s[..|s| - 1]);
    }
  }

  /** The values substituted into one card: rank, escaped name, points (the
      `{level}` slot) and escaped email. */
  datatype Card = Card(rank: int, name: string, level: int, email: string)

  function CardOf(e: Entry, rank: int): Card {
    Card(rank, EscapeHTML(e.name), e.points, EscapeHTML(e.email))
  }

  /** The entries of the listed order that are not admins. */
  function NonAdmins(entries: seq<Entry>, admins: set<string>): (r: seq<Entry>)
    ensures |r| <= |entries|
  {
    if |entries| == 0 then []
    else
      var front := NonAdmins(entries[..|entries| - 1], admins);
      var e := entries[|entries| - 1];
      if Admins.Listed(admins, e.email) then front else front + [e]
  }

  /** The cards of the non-admin entries, ranked 1, 2, … in order. */
  function Cards(entries: seq<Entry>, admins: set<string>): seq<Card> {
    var na := NonAdmins(entries, admins);
    seq(|na|, i requires 0 <= i < |na| => CardOf(na[i], i + 1))
  }

  lemma CardsStep(entries: seq<Entry>, admins: set<string>, i: nat)
    requires i < |entries|
    ensures var e := entries[i]; var before := Cards(entries[..i], admins);
      Cards(entries[..i + 1], admins) ==
        if Admins.Listed(admins, e.email) then before else before + [CardOf(e, |before| + 1)]
  {
    assert entries[..i + 1][..i] == entries[..i];
  }

  /** The card loop of `GenerateLeaderboardHTML`: admins are skipped and the rank
      counter advances only for the others. */
  method RankCards(entries: seq<Entry>, admins: Admins.Admins?) returns (cards: seq<Card>)
    ensures cards == Cards(entries, Admins.MembersOf(admins))
  {
    ghost var members := Admins.MembersOf(admins);
    cards := [];
    var rank := 1;
    for i := 0 to |entries|
      invariant rank == |cards| + 1
      invariant cards == Cards(entries[..i], members)
    {
      var e := entries[i];
      CardsStep(entries, members, i);
      Admins.IsAdminListed(admins, e.email);
      if admins != null && Admins.IsAdmin(admins, e.email) {
        continue;
      }
      cards := cards + [CardOf(e, rank)];
      rank := rank + 1;
    }
    assert entries[..|entries|] == entries;
  }

  /** A non-admin entry is kept, an admin's is dropped, and the order is kept. */
  lemma {:induction false} NonAdminsMembers(entries: seq<Entry>, admins: set<string>, e: Entry)
    ensures e in NonAdmins(entries, admins) <==> e in entries && !Admins.Listed(admins, e.email)
  {
    if |entries| > 0 {
      var front := entries[..|entries| - 1];
      NonAdminsMembers(front, admins, e);
      assert entries == front + [entries[|entries| - 1]];
    }
  }

  /** Ranks run 1, 2, … with no gap, one card per non-admin entry, in board order,
      and no admin gets a card. */
  lemma RanksConsecutive(entries: seq<Entry>, admins: set<string>, i: nat)
    requires i < |Cards(entries, admins)|
    ensures Cards(entries, admins)[i].rank == i + 1
    ensures exists e :: e in entries && !Admins.Listed(admins, e.email) && Cards(entries, admins)[i] == CardOf(e, i + 1)
  {
    var na := NonAdmins(entries, admins);
    NonAdminsMembers(entries, admins, na[i]);
  }

  /** `GenerateLeaderboardHTML` up to the template: the cards of the board, or the
      store's error. The card template file is not modelled. */
  method LeaderboardHTML(db: Database, admins: Admins.Admins?, ks: seq<string>, codec: Codec) returns (cards: Option<seq<Card>>)
    requires Enumerates(db.tables.users, ks)
    ensures cards == Some(Cards(Board(Decoded(Values(db.tables.users, ks), codec)), Admins.MembersOf(admins)))
  {
    var data := db.GetAll("leaderboard", codec);
    if data.None? {
      return None;
    }
    var entries := DecodeAll(Values(data.value, ks), codec);
    BoardStrictWeak(entries);
    entries := SortBy(entries, BoardLess);
    var r := RankCards(entries, admins);
    cards := Some(r);
  }

  /** The startup listings (`ProcessLeaderboard` and the dump in `main`): the board
      numbered from 1, admins included. Writing the sample record first and printing
      are not modelled. */
  method StartupListing(db: Database, ks: seq<string>, codec: Codec) returns (lines: seq<(int, Entry)>)
    requires Enumerates(db.tables.users, ks)
    ensures var b := Board(Decoded(Values(db.tables.users, ks), codec));
      |lines| == |b| && forall i :: 0 <= i < |b| ==> lines[i] == (i + 1, b[i])
  {
    var data := db.GetAll("leaderboard", codec);
    var entries := DecodeAll(Values(data.value, ks), codec);
    BoardStrictWeak(entries);
    entries := SortBy(entries, BoardLess);
    lines := [];
    for i := 0 to |entries|
      invariant |lines| == i && forall k :: 0 <= k < i ==> lines[k] == (k + 1, entries[k])
    {
      lines := lines + [(i + 1, entries[i])];
    }
  }

  // ---------------------------------------------------------------- the JSON API

  /** The API loop keeps the decodable non-admin entries. */
  function ApiEntries(values: seq<string>, admins: set<string>, codec: Codec): seq<Entry> {
    NonAdmins(Decoded(values, codec), admins)
  }

  function ApiSorted(entries: seq<Entry>, sortBy: string, asc: bool): (r: seq<Entry>)
    ensures multiset(r) == multiset(entries)
    ensures SortedBy(r, (a, b) => ApiLess(sortBy, asc, a, b))
  {
    ApiStrictWeak(entries, sortBy, asc);
    SortBy(entries, (a, b) => ApiLess(sortBy, asc, a, b))
  }

  /** `LeaderboardAPIHandler`: the sorted non-admin entries (the response body). */
  method LeaderboardAPI(db: Database, admins: Admins.Admins?, sortBy: string, order: string, ks: seq<string>, codec: Codec)
    returns (body: seq<Entry>)
    requires Enumerates(db.tables.users, ks)
    ensures body == ApiSorted(ApiEntries(Values(db.tables.users, ks), Admins.MembersOf(admins), codec), sortBy, Ascending(order))
  {
    var asc := Ascending(order);
    var data := db.GetAll("leaderboard", codec);
    var entries := KeepNonAdmins(Values(data.value, ks), admins, codec);
    body := ApiSorted(entries, sortBy, asc);
  }

  /** The API's loop over the listed values: decodable entries of non-admins. */
  method KeepNonAdmins(values: seq<string>, admins: Admins.Admins?, codec: Codec) returns (entries: seq<Entry>)
    ensures entries == NonAdmins(Decoded(values, codec), Admins.MembersOf(admins))
  {
    entries := [];
    ghost var members := Admins.MembersOf(admins);
    for i := 0 to |values|
      invariant entries == NonAdmins(Decoded(values[..i], codec), members)
    {
      assert values[..i + 1][..i] == values[..i];
      var e := DecodeEntry(values[i], codec);
      if e.None? {
        continue;
      }
      Admins.IsAdminListed(admins, e.value.email);
      if admins != null && Admins.IsAdmin(admins, e.value.email) {
        continue;
      }
      entries := entries + [e.value];
    }
    assert values[..|values|] == values;
  }

  /** No admin is listed by the API, and every decodable non-admin entry is. */
  lemma ApiExcludesAdmins(values: seq<string>, admins: set<string>, codec: Codec, sortBy: string, asc: bool, e: Entry)
    ensures e in ApiSorted(ApiEntries(values, admins, codec), sortBy, asc) <==>
      e in Decoded(values, codec) && !Admins.Listed(admins, e.email)
  {
    var es := ApiEntries(values, admins, codec);
    assert e in ApiSorted(es, sortBy, asc) <==> e in multiset(ApiSorted(es, sortBy, asc));
    NonAdminsMembers(Decoded(values, codec), admins, e);
  }

  /** The API's order between any two listed entries, for each `sort` mode. */
  lemma ApiOrdered(entries: seq<Entry>, sortBy: string, asc: bool, i: nat, j: nat)
    requires i < j < |ApiSorted(entries, sortBy, asc)|
    ensures var r := ApiSorted(entries, sortBy, asc); var a := r[i]; var b := r[j];
      (sortBy == "time" ==>
        (asc ==> a.time < b.time || (a.time == b.time && a.points >= b.points))
        && (!asc ==> a.time > b.time || (a.time == b.time && a.points >= b.points)))
      && (sortBy == "user" ==>
        (asc ==> !LexLess(Lower(b.name), Lower(a.name)))
        && (!asc ==> !LexLess(Lower(a.name), Lower(b.name))))
      && (sortBy != "time" && sortBy != "user" ==>
        (asc ==> a.points < b.points || (a.points == b.points && a.time <= b.time))
        && (!asc ==> a.points > b.points || (a.points == b.points && a.time >= b.time)))
  {
    var r := ApiSorted(entries, sortBy, asc);
    assert !ApiLess(sortBy, asc, r[j], r[i]);
  }

  /** Decoding what `json.Marshal` wrote gives the entry back. */
  lemma EntryRoundTrip(e: Entry, codec: Codec)
    requires Lawful(codec) && InInt64(e.points)
    ensures DecodeEntry(codec.encode(EntryJson(e)), codec) == Some(e)
  {
    assert codec.decode(codec.encode(EntryJson(e))) == Some(EntryJson(e));
    assert (e.points as real).Floor == e.points;
  }
}
