/** Announcements (handlers/announcements.go): the public listing in key order, with a
    checksum over a canonical text so that clients polling with an unchanged checksum
    get 304, and the admin handlers that store and delete announcements. */
module Announcements {
  import opened Basics
  import opened Json
  import opened Text
  import opened Store
  import opened Sorting
  import Admins
  import Auth

  // ---------------------------------------------------------------- the sorted keys

  /** Each key of `items` once, in ascending order. */
  ghost predicate Ascending(items: map<string, string>, keys: seq<string>) {
    Enumerates(items, keys) && forall i, j :: 0 <= i < j < |keys| ==> LexLess(keys[i], keys[j])
  }

  /** A sequence without repeats counts each of its elements once. */
  lemma {:induction false} DistinctMultiset(s: seq<string>)
    requires forall i, j :: 0 <= i < j < |s| ==> s[i] != s[j]
    ensures multiset(s) == multiset(set x | x in s)
  {
    if |s| > 0 {
      var front, last := s[..|s| - 1], s[|s| - 1];
      DistinctMultiset(front);
      assert s == front + [last];
      assert (set x | x in s) == (set x | x in front) + {last};
      assert last !in (set x | x in front);
    } else {
      assert (set x: string | x in s) == {};
    }
  }

  lemma RepeatCounted(s: seq<string>, i: int, j: int)
    requires 0 <= i < j < |s| && s[i] == s[j]
    ensures multiset(s)[s[i]] >= 2
  {
    assert s == s[..j] + [s[j]] + s[j + 1..];
    assert s[..j][i] == s[i];
  }

  /** The `for k := range items` loop collecting the keys. */
  method CollectKeys(items: map<string, string>) returns (ks: seq<string>)
    ensures Enumerates(items, ks)
  {
    ks := [];
    var rest := items.Keys;
    while rest != {}
      invariant rest <= items.Keys
      invariant forall i, j :: 0 <= i < j < |ks| ==> ks[i] != ks[j]
      invariant forall k :: k in items ==> (k in ks <==> k !in rest)
      invariant forall k :: k in ks ==> k in items
      decreases rest
    {
      var k :| k in rest;
      ks := ks + [k];
      rest := rest - {k};
    }
    assert items.Keys == set k | k in ks;
  }

  /** A sorted sequence without repeats ascends strictly. */
  lemma SortedStrict(keys: seq<string>)
    requires SortedBy(keys, LexLess)
    requires forall x :: x in multiset(keys) ==> multiset(keys)[x] <= 1
    ensures forall i, j :: 0 <= i < j < |keys| ==> LexLess(keys[i], keys[j])
  {
    forall i, j | 0 <= i < j < |keys| ensures LexLess(keys[i], keys[j]) {
      if keys[i] == keys[j] {
        RepeatCounted(keys, i, j);
        assert false;
      }
      LexTotal(keys[i], keys[j]);
    }
  }

  /** Sorting the enumerated keys leaves each once. */
  lemma SortedDistinct(items: map<string, string>, ks: seq<string>)
    requires Enumerates(items, ks)
    ensures StrictWeakOn(ks, LexLess)
    ensures forall i, j :: 0 <= i < j < |SortBy(ks, LexLess)| ==> LexLess(SortBy(ks, LexLess)[i], SortBy(ks, LexLess)[j])
  {
    LexStrictWeak(ks);
    var keys := SortBy(ks, LexLess);
    AtMostOnce(ks);
    assert multiset(keys) == multiset(ks);
    SortedStrict(keys);
  }

  /** A sequence without repeats holds each element at most once. */
  lemma AtMostOnce(s: seq<string>)
    requires forall i, j :: 0 <= i < j < |s| ==> s[i] != s[j]
    ensures forall x :: x in multiset(s) ==> multiset(s)[x] <= 1
  {
    DistinctMultiset(s);
  }

  /** Sorting the enumerated keys gives them in ascending order, each once. */
  lemma SortAscending(items: map<string, string>, ks: seq<string>)
    requires Enumerates(items, ks)
    ensures StrictWeakOn(ks, LexLess)
    ensures Ascending(items, SortBy(ks, LexLess))
  {
    SortedDistinct(items, ks);
    var keys := SortBy(ks, LexLess);
    assert forall i, j :: 0 <= i < j < |keys| ==> keys[i] != keys[j] by {
      forall i, j | 0 <= i < j < |keys| ensures keys[i] != keys[j] {
        LexIrreflexive(keys[i]);
      }
    }
    SameSet(ks, keys);
  }

  lemma SameSet(a: seq<string>, b: seq<string>)
    requires multiset(a) == multiset(b)
    ensures (set k | k in a) == (set k | k in b)
  {
    assert forall k :: k in a <==> k in multiset(a);
    assert forall k :: k in b <==> k in multiset(b);
  }

  /** The keys loop followed by `sort.Strings(keys)`. */
  method SortedKeys(items: map<string, string>) returns (keys: seq<string>)
    ensures Ascending(items, keys)
  {
    var ks := CollectKeys(items);
    SortAscending(items, ks);
    keys := SortBy(ks, LexLess);
  }

  /** Strict ascent is sortedness with every pair comparable. */
  lemma AscendingSorted(a: seq<string>)
    requires forall i, j :: 0 <= i < j < |a| ==> LexLess(a[i], a[j])
    ensures SortedBy(a, LexLess) && TotalOn(a, LexLess)
  {
    forall i, j | 0 <= i < |a| && 0 <= j < |a| ensures a[i] == a[j] || LexLess(a[i], a[j]) || LexLess(a[j], a[i]) {
      LexTotal(a[i], a[j]);
    }
    forall i, j | 0 <= i < j < |a| ensures !LexLess(a[j], a[i]) {
      LexIrreflexive(a[i]);
      if LexLess(a[j], a[i]) {
        LexTransitive(a[i], a[j], a[i]);
      }
    }
  }

  /** The sorted keys do not depend on the order the map was visited in. */
  lemma AscendingUnique(items: map<string, string>, a: seq<string>, b: seq<string>)
    requires Ascending(items, a) && Ascending(items, b)
    ensures a == b
  {
    DistinctMultiset(a);
    DistinctMultiset(b);
    assert multiset(a) == multiset(b);
    AscendingSorted(a);
    AscendingSorted(b);
    SortedUnique(a, b, LexLess);
  }

  // ---------------------------------------------------------------- one stored item

  /** A stored value as `json.Unmarshal` into `map[string]interface{}` reads it: None
      is an error (the item is skipped); `null` gives the nil map. */
  function Record(v: string, codec: Codec): Option<map<string, Json>> {
    DecodeObject(codec.decode(v))
  }

  /** `m["content"].(string)`, or "". */
  function Content(m: map<string, Json>): string {
    match StrField(m, "content") case Some(c) => c case None => ""
  }

  /** `m["time"]`: null when absent. */
  function TimeOf(m: map<string, Json>): Json {
    if "time" in m then m["time"] else JNull
  }

  /** The type switch on `time`: a number truncated to an integer, a string verbatim,
      anything else nothing. */
  function TimeText(j: Json): (r: string)
    ensures j.JStr? ==> r == j.s
    ensures !j.JStr? && !j.JNum? ==> r == ""
  {
    match j
    case JNum(n) => Itoa(Trunc(n))
    case JStr(s) => s
    case _ => ""
  }

  /** One listed announcement `{"id", "text", "time"}`. */
  datatype Item = Item(id: string, text: string, time: Json)

  /** The canonical text of one item: `key|content|time::`, or nothing when it does not decode. */
  function Piece(k: string, v: string, codec: Codec): (r: string)
    ensures Record(v, codec).None? ==> r == ""
    ensures Record(v, codec).Some? ==> |r| >= |k| + 4 && r[..|k|] == k && r[|k|] == '|' && r[|r| - 2..] == "::"
  {
    match Record(v, codec)
    case None => ""
    case Some(m) => k + "|" + Content(m) + "|" + TimeText(TimeOf(m)) + "::"
  }

  // ---------------------------------------------------------------- canonical text and listing

  /** The checksum input: the pieces of the keys in order. */
  function Canonical(items: map<string, string>, keys: seq<string>, codec: Codec): string
    requires forall k :: k in keys ==> k in items
  {
    if |keys| == 0 then ""
    else
      var k := keys[|keys| - 1];
      Canonical(items, keys[..|keys| - 1], codec) + Piece(k, items[k], codec)
  }

  /** The items of the listing, in key order, skipping those that do not decode. */
  function Listed(items: map<string, string>, keys: seq<string>, codec: Codec): (r: seq<Item>)
    requires forall k :: k in keys ==> k in items
    ensures forall i :: 0 <= i < |r| ==> r[i].id in keys
  {
    if |keys| == 0 then []
    else
      var k := keys[|keys| - 1];
      var front := Listed(items, keys[..|keys| - 1], codec);
      match Record(items[k], codec)
      case None => front
      case Some(m) => front + [Item(k, Content(m), TimeOf(m))]
  }

  /** An item is listed exactly when its key's value decodes to a record it shows. */
  lemma {:induction false} ListedMembers(items: map<string, string>, keys: seq<string>, codec: Codec, it: Item)
    requires forall k :: k in keys ==> k in items
    ensures it in Listed(items, keys, codec) <==>
      it.id in keys && Record(items[it.id], codec).Some?
      && it == Item(it.id, Content(Record(items[it.id], codec).value), TimeOf(Record(items[it.id], codec).value))
  {
    if |keys| > 0 {
      var front := keys[..|keys| - 1];
      ListedMembers(items, front, codec, it);
      assert forall k :: k in keys <==> k in front || k == keys[|keys| - 1];
    }
  }

  /** With ascending keys the listed ids ascend too. */
  lemma {:induction false} ListedAscending(items: map<string, string>, keys: seq<string>, codec: Codec,
                                           less: (string, string) -> bool)
    requires forall k :: k in keys ==> k in items
    requires forall i, j :: 0 <= i < j < |keys| ==> less(keys[i], keys[j])
    ensures forall i, j :: 0 <= i < j < |Listed(items, keys, codec)| ==>
      less(Listed(items, keys, codec)[i].id, Listed(items, keys, codec)[j].id)
  {
    if |keys| > 0 {
      var front := keys[..|keys| - 1];
      var last := keys[|keys| - 1];
      assert forall i, j :: 0 <= i < j < |front| ==> less(front[i], front[j]) by {
        assert forall i :: 0 <= i < |front| ==> front[i] == keys[i];
      }
      ListedAscending(items, front, codec, less);
      var r := Listed(items, front, codec);
      assert forall i, j :: 0 <= i < j < |r| ==> less(r[i].id, r[j].id);
      assert forall k :: k in front ==> less(k, last) by {
        forall k | k in front ensures less(k, last) {
          var i :| 0 <= i < |front| && front[i] == k;
          assert keys[i] == k;
        }
      }
      match Record(items[last], codec)
      case None =>
        assert Listed(items, keys, codec) == r;
      case Some(m) =>
        var r' := r + [Item(last, Content(m), TimeOf(m))];
        assert Listed(items, keys, codec) == r';
        forall i, j | 0 <= i < j < |r'| ensures less(r'[i].id, r'[j].id) {
          if j < |r| {
            assert r'[i] == r[i] && r'[j] == r[j];
          } else {
            assert r'[i] == r[i] && r[i].id in front && r'[j].id == last;
            assert less(r[i].id, last);
          }
        }
    }
  }

  /** The loop writing the canonical text into a builder. */
  method BuildCanonical(items: map<string, string>, keys: seq<string>, codec: Codec) returns (s: string)
    requires forall k :: k in keys ==> k in items
    ensures s == Canonical(items, keys, codec)
  {
    s := "";
    for i := 0 to |keys|
      invariant s == Canonical(items, keys[..i], codec)
    {
      assert keys[..i + 1][..i] == keys[..i];
      var k := keys[i];
      match Record(items[k], codec)
      case Some(m) =>
        var t := match TimeOf(m) case JNum(n) => Itoa(Trunc(n)) case JStr(x) => x case _ => "";
        var piece := k + "|" + Content(m) + "|" + t + "::";
        assert piece == Piece(k, items[k], codec);
        s := s + piece;
      case None =>
    }
    assert keys[..|keys|] == keys;
  }

  /** The loop appending the listed items. */
  method BuildListing(items: map<string, string>, keys: seq<string>, codec: Codec) returns (out: seq<Item>)
    requires forall k :: k in keys ==> k in items
    ensures out == Listed(items, keys, codec)
  {
    out := [];
    for i := 0 to |keys|
      invariant out == Listed(items, keys[..i], codec)
    {
      assert keys[..i + 1][..i] == keys[..i];
      var k := keys[i];
      var m := Record(items[k], codec);
      if m.Some? {
        out := out + [Item(k, Content(m.value), TimeOf(m.value))];
      }
    }
    assert keys[..|keys|] == keys;
  }

  // ---------------------------------------------------------------- the listing handler

  /** `Sample` is the one welcome item `{"time": "just now", "text": "Welcome to
      Sudocrypt 2025"}`; `NotModified` is 304. */
  datatype ListReply = Sample | NotModified | Listing(checksum: string, items: seq<Item>)

  /** `fmt.Sprintf("%x", sha256.Sum256(...))` of the canonical text. */
  function Checksum(items: map<string, string>, keys: seq<string>, sha: Auth.Digest, codec: Codec): string
    requires forall k :: k in keys ==> k in items
  {
    Auth.Hex(sha(Canonical(items, keys, codec)))
  }

  /** The reply for the stored items visited in the order `keys`. */
  function ListPlan(items: map<string, string>, keys: seq<string>, client: string, sha: Auth.Digest, codec: Codec)
    : (r: ListReply)
    requires forall k :: k in keys ==> k in items
    ensures r == Sample <==> |items| == 0
    ensures |items| > 0 ==> (r == NotModified <==> client != "" && client == Checksum(items, keys, sha, codec))
    ensures r.Listing? ==> r.checksum == Checksum(items, keys, sha, codec) && r.items == Listed(items, keys, codec)
  {
    if |items| == 0 then Sample
    else
      var sum := Checksum(items, keys, sha, codec);
      if client != "" && client == sum then NotModified
      else Listing(sum, Listed(items, keys, codec))
  }

  /** `AnnouncementsHandler`. */
  method List(db: Database, client: string, sha: Auth.Digest, codec: Codec) returns (reply: ListReply, keys: seq<string>)
    ensures Ascending(db.tables.announcements, keys)
    ensures reply == ListPlan(db.tables.announcements, keys, client, sha, codec)
  {
    var all := db.GetAll("announcements", codec);
    var items := all.value;
    keys := [];
    if |items| == 0 {
      keys := SortedKeys(items);
      return Sample, keys;
    }
    keys := SortedKeys(items);
    EnumeratedKeys(items, keys);
    var canon := BuildCanonical(items, keys, codec);
    var sum := Auth.Hex(sha(canon));
    if client != "" && client == sum {
      return NotModified, keys;
    }
    var out := BuildListing(items, keys, codec);
    reply := Listing(sum, out);
  }

  /** The listing shows the items in strictly ascending id order, and the reply does
      not depend on the order the stored rows were visited in. */
  lemma ListingDetermined(items: map<string, string>, a: seq<string>, b: seq<string>, client: string,
                          sha: Auth.Digest, codec: Codec)
    requires Ascending(items, a) && Ascending(items, b)
    ensures forall k :: k in a ==> k in items
    ensures ListPlan(items, a, client, sha, codec) == ListPlan(items, b, client, sha, codec)
    ensures var r := Listed(items, a, codec);
      forall i, j :: 0 <= i < j < |r| ==> LexLess(r[i].id, r[j].id)
  {
    EnumeratedKeys(items, a);
    AscendingUnique(items, a, b);
    ListedAscending(items, a, codec, LexLess);
  }

  // ---------------------------------------------------------------- the admin handlers

  datatype Reply = Failure(code: int, message: string) | Success | Redirect(location: string)

  /** The account's `admin` flag: a record that decodes to an object with `admin: true`. */
  predicate AccountAdmin(t: Tables, email: string, codec: Codec) {
    match GetT(t, "accounts", email, codec)
    case Some(raw) =>
      raw != "" && (match GoMap(codec.decode(raw)) case Some(m) => BoolField(m, "admin") == Some(true) case None => false)
    case None => false
  }

  /** Who may change announcements: a listed admin or an account flagged admin. */
  predicate Allowed(t: Tables, members: set<string>, email: string, codec: Codec) {
    Admins.Listed(members, email) || AccountAdmin(t, email, codec)
  }

  /** The stored `time`: now when the form leaves it empty, the integer when it parses
      as an int64, otherwise the text as given. */
  function TimeValue(t: string, now: int): (r: Json)
    ensures t == "" ==> r == JNum(now as real)
    ensures t != "" && ParseInt(t).Some? ==> r == JNum(ParseInt(t).value as real)
    ensures t != "" && ParseInt(t).None? ==> r == JStr(t)
  {
    if t == "" then JNum(now as real)
    else match ParseInt(t) case Some(n) => JNum(n as real) case None => JStr(t)
  }

  function StoredRecord(content: string, time: Json): Json {
    JObj(map["content" := JStr(content), "time" := time])
  }

  /** The write of a create: `{"content", "time"}` under the id. */
  function CreateOp(form: map<string, string>, now: int, codec: Codec): Op {
    Put("announcements", Param(form, "id"),
        codec.encode(StoredRecord(Param(form, "content"), TimeValue(Param(form, "time"), now))))
  }

  /** `SetAnnouncementHandler`: cookies `session` and `email` ("" when absent), form
      values `id`, `content`, `time`. */
  function SetPlan(t: Tables, members: set<string>, session: string, email: string, form: map<string, string>,
                   now: int, codec: Codec): (r: (Reply, seq<Op>))
    ensures session == "" || email == "" ==> r == (Failure(401, "unauthenticated"), [])
    ensures session != "" && email != "" && !Allowed(t, members, email, codec) ==> r == (Failure(403, "forbidden"), [])
    ensures r.0 == Success <==> (session != "" && email != "" && Allowed(t, members, email, codec)
      && Param(form, "id") != "" && Param(form, "content") != "")
    ensures r.0 == Success ==> r.1 == [CreateOp(form, now, codec)]
    ensures r.0 != Success ==> r.1 == []
  {
    if session == "" || email == "" then (Failure(401, "unauthenticated"), [])
    else if !Allowed(t, members, email, codec) then (Failure(403, "forbidden"), [])
    else if Param(form, "id") == "" || Param(form, "content") == "" then (Failure(400, "missing id or content"), [])
    else (Success, [CreateOp(form, now, codec)])
  }

  /** `DeleteAnnouncementHandler`. */
  function DeletePlan(t: Tables, members: set<string>, session: string, email: string, form: map<string, string>,
                      codec: Codec): (r: (Reply, seq<Op>))
    ensures session == "" || email == "" ==> r == (Failure(401, "unauthenticated"), [])
    ensures r.0 == Success <==> (session != "" && email != "" && Allowed(t, members, email, codec) && Param(form, "id") != "")
    ensures r.0 == Success ==> r.1 == [Remove("announcements", Param(form, "id"))]
    ensures r.0 != Success ==> r.1 == []
  {
    if session == "" || email == "" then (Failure(401, "unauthenticated"), [])
    else if !Allowed(t, members, email, codec) then (Failure(403, "forbidden"), [])
    else if Param(form, "id") == "" then (Failure(400, "missing id"), [])
    else (Success, [Remove("announcements", Param(form, "id"))])
  }

  /** `AdminCreateAnnouncementFormHandler`: the same checks answered by redirects. */
  function CreateFormPlan(t: Tables, members: set<string>, session: string, email: string, form: map<string, string>,
                          now: int, codec: Codec): (r: (Reply, seq<Op>))
    ensures session == "" || email == "" ==> r == (Redirect("/auth?toast=1&from=/admin"), [])
    ensures session != "" && email != "" && !Allowed(t, members, email, codec) ==> r == (Redirect("/timegate?toast=1&from=/admin"), [])
    ensures r.1 != [] <==> SetPlan(t, members, session, email, form, now, codec).0 == Success
    ensures r.1 != [] ==> r == (Redirect("/admin"), [CreateOp(form, now, codec)])
  {
    if session == "" || email == "" then (Redirect("/auth?toast=1&from=/admin"), [])
    else if !Allowed(t, members, email, codec) then (Redirect("/timegate?toast=1&from=/admin"), [])
    else if Param(form, "id") == "" || Param(form, "content") == "" then (Redirect("/admin"), [])
    else (Redirect("/admin"), [CreateOp(form, now, codec)])
  }

  /** `AdminDeleteAnnouncementFormHandler`: an empty id deletes nothing. */
  function DeleteFormPlan(t: Tables, members: set<string>, session: string, email: string, form: map<string, string>,
                          codec: Codec): (r: (Reply, seq<Op>))
    ensures session == "" || email == "" ==> r == (Redirect("/auth?toast=1&from=/admin"), [])
    ensures session != "" && email != "" && !Allowed(t, members, email, codec) ==> r == (Redirect("/timegate?toast=1&from=/admin"), [])
    ensures r.1 != [] <==> DeletePlan(t, members, session, email, form, codec).0 == Success
    ensures r.1 != [] ==> r == (Redirect("/admin"), [Remove("announcements", Param(form, "id"))])
  {
    if session == "" || email == "" then (Redirect("/auth?toast=1&from=/admin"), [])
    else if !Allowed(t, members, email, codec) then (Redirect("/timegate?toast=1&from=/admin"), [])
    else if Param(form, "id") != "" then (Redirect("/admin"), [Remove("announcements", Param(form, "id"))])
    else (Redirect("/admin"), [])
  }

  /** Runs one of the four admin handlers: `create` and `delete` answer in JSON, `form-create`
      and `form-delete` by redirect. */
  method Admin(db: Database, admins: Admins.Admins?, kind: string, session: string, email: string,
               form: map<string, string>, now: int, codec: Codec) returns (reply: Reply)
    requires kind in {"create", "delete", "form-create", "form-delete"}
    modifies db
    ensures var members := Admins.MembersOf(admins);
      var p := if kind == "create" then SetPlan(old(db.tables), members, session, email, form, now, codec)
               else if kind == "delete" then DeletePlan(old(db.tables), members, session, email, form, codec)
               else if kind == "form-create" then CreateFormPlan(old(db.tables), members, session, email, form, now, codec)
               else DeleteFormPlan(old(db.tables), members, session, email, form, codec);
      reply == p.0 && db.tables == ApplyAll(old(db.tables), p.1, now, codec).0
  {
    Admins.IsAdminListed(admins, email);
    var members := Admins.MembersOf(admins);
    var p := if kind == "create" then SetPlan(db.tables, members, session, email, form, now, codec)
             else if kind == "delete" then DeletePlan(db.tables, members, session, email, form, codec)
             else if kind == "form-create" then CreateFormPlan(db.tables, members, session, email, form, now, codec)
             else DeleteFormPlan(db.tables, members, session, email, form, codec);
    var _ := db.Apply(p.1, now, codec);
    reply := p.0;
  }

  // ---------------------------------------------------------------- properties

  lemma PutAnnouncement(t: Tables, id: string, v: string, now: int, codec: Codec)
    ensures ApplyAll(t, [Put("announcements", id, v)], now, codec).0 == t.(announcements := t.announcements[id := v])
  {
    assert [Put("announcements", id, v)][..0] == [];
  }

  /** What a successful create leaves in the table. */
  lemma StoredAfterSet(t: Tables, members: set<string>, session: string, email: string, form: map<string, string>,
                       now: int, codec: Codec)
    requires SetPlan(t, members, session, email, form, now, codec).0 == Success
    ensures ApplyAll(t, SetPlan(t, members, session, email, form, now, codec).1, now, codec).0.announcements
      == t.announcements[Param(form, "id") := codec.encode(StoredRecord(Param(form, "content"), TimeValue(Param(form, "time"), now)))]
  {
    var v := codec.encode(StoredRecord(Param(form, "content"), TimeValue(Param(form, "time"), now)));
    PutAnnouncement(t, Param(form, "id"), v, now, codec);
  }

  /** The checksum piece of a stored announcement carries the time as the form gave
      it: the integer's decimal form, now's, or the raw text. */
  lemma StoredPiece(id: string, content: string, time: string, now: int, codec: Codec)
    requires Lawful(codec) && InInt64(now)
    ensures Piece(id, codec.encode(StoredRecord(content, TimeValue(time, now))), codec)
      == id + "|" + content + "|"
         + (if time == "" then Itoa(now) else match ParseInt(time) case Some(n) => Itoa(n) case None => time)
         + "::"
  {
    PieceOfStored(id, content, TimeValue(time, now), codec);
    var n := ParseInt(time);
    if time == "" {
      assert (now as real).Floor == now;
    } else if n.Some? {
      assert (n.value as real).Floor == n.value;
    }
  }

  /** The piece of a stored record, whatever its time. */
  lemma PieceOfStored(id: string, content: string, time: Json, codec: Codec)
    requires Lawful(codec)
    ensures Piece(id, codec.encode(StoredRecord(content, time)), codec) == id + "|" + content + "|" + TimeText(time) + "::"
  {
    var rec := StoredRecord(content, time);
    assert codec.decode(codec.encode(rec)) == Some(rec);
  }

  /** A stored announcement is in the listing, with its content and classified time. */
  lemma StoredListed(items: map<string, string>, keys: seq<string>, id: string, content: string, time: Json,
                     sha: Auth.Digest, codec: Codec)
    requires Lawful(codec) && Ascending(items, keys)
    requires id in items && items[id] == codec.encode(StoredRecord(content, time))
    ensures forall k :: k in keys ==> k in items
    ensures ListPlan(items, keys, "", sha, codec).Listing?
    ensures Item(id, content, time) in ListPlan(items, keys, "", sha, codec).items
  {
    var rec := StoredRecord(content, time);
    assert codec.decode(codec.encode(rec)) == Some(rec);
    EnumeratedKeys(items, keys);
    ListedMembers(items, keys, codec, Item(id, content, time));
    assert |items| > 0 by { assert id in items.Keys; }
  }

  /** A created announcement is listed with its content and classified time. */
  lemma SetThenListed(t: Tables, members: set<string>, session: string, email: string, form: map<string, string>,
                      now: int, codec: Codec, keys: seq<string>, sha: Auth.Digest)
    requires Lawful(codec)
    requires SetPlan(t, members, session, email, form, now, codec).0 == Success
    requires Ascending(ApplyAll(t, SetPlan(t, members, session, email, form, now, codec).1, now, codec).0.announcements, keys)
    ensures var after := ApplyAll(t, SetPlan(t, members, session, email, form, now, codec).1, now, codec).0.announcements;
      && (forall k :: k in keys ==> k in after)
      && ListPlan(after, keys, "", sha, codec).Listing?
      && Item(Param(form, "id"), Param(form, "content"), TimeValue(Param(form, "time"), now))
         in ListPlan(after, keys, "", sha, codec).items
  {
    StoredAfterSet(t, members, session, email, form, now, codec);
    var after := ApplyAll(t, SetPlan(t, members, session, email, form, now, codec).1, now, codec).0.announcements;
    StoredListed(after, keys, Param(form, "id"), Param(form, "content"), TimeValue(Param(form, "time"), now), sha, codec);
  }

  lemma DeleteAnnouncement(t: Tables, id: string, now: int, codec: Codec)
    ensures ApplyAll(t, [Remove("announcements", id)], now, codec).0.announcements == t.announcements - {id}
  {
    assert [Remove("announcements", id)][..0] == [];
    assert "announcements"[..9] == "announcem";
  }

  /** Deleting the only announcement brings the welcome sample back. */
  lemma DeleteLastShowsSample(t: Tables, members: set<string>, session: string, email: string,
                              form: map<string, string>, now: int, codec: Codec, sha: Auth.Digest)
    requires t.announcements.Keys == {Param(form, "id")}
    requires DeletePlan(t, members, session, email, form, codec).0 == Success
    ensures var after := ApplyAll(t, DeletePlan(t, members, session, email, form, codec).1, now, codec).0.announcements;
      ListPlan(after, [], "", sha, codec) == Sample
  {
    var id := Param(form, "id");
    DeleteAnnouncement(t, id, now, codec);
    var after := ApplyAll(t, [Remove("announcements", id)], now, codec).0.announcements;
    assert after.Keys == {};
  }
}
