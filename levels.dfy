/** Levels (handlers/levels.go): the level-ID format, the stored level record, the
    admin set/delete/list operations, and the answer submission that advances a
    player's level in the `accounts` record and writes the leaderboard, message and
    log tables. The public hash of an answer is a parameter of the model. */
module Levels {
  import opened Basics
  import opened Json
  import opened Text
  import opened Sorting
  import opened Store

  /** The `Level` struct. */
  datatype Level = Level(id: string, answer: string, markup: string, sourceHint: string,
                         publicHash: string, leadsEnabled: bool)

  const ZeroLevel: Level := Level("", "", "", "", "", false)

  // ---------------------------------------------------------------- level IDs

  predicate DigitsAfter(id: string, prefix: string) {
    |id| > |prefix| && id[..|prefix|] == prefix && AllDigits(id[|prefix|..])
  }

  /** `^(ctf|cryptic)-([0-9]+)$`. */
  predicate IsValidLevelID(id: string) {
    DigitsAfter(id, "ctf-") || DigitsAfter(id, "cryptic-")
  }

  /** The ID of level `n` of a type, as `fmt.Sprintf("%s-%d", typ, n)` builds it. */
  function LevelID(typ: string, n: int): string {
    typ + "-" + Itoa(n)
  }

  /** A built ID is valid exactly for the two level types and a non-negative number. */
  lemma LevelIDValid(typ: string, n: int)
    ensures IsValidLevelID(LevelID(typ, n)) <==> (typ == "ctf" || typ == "cryptic") && n >= 0
  {
    var id := LevelID(typ, n);
    var d := Itoa(n);
    assert id[|typ|] == '-';
    assert id[|typ| + 1..] == d;
    if typ == "ctf" || typ == "cryptic" {
      assert id[..|typ| + 1] == typ + "-";
      if n < 0 {
        assert id[|typ| + 1] == '-';
        if typ == "ctf" {
          assert !DigitsAfter(id, "cryptic-") by {
            if |id| > 8 { assert id[3] != "cryptic-"[3]; }
          }
        } else {
          assert !DigitsAfter(id, "ctf-") by { assert id[1] != "ctf-"[1]; }
        }
      } else if typ == "ctf" {
        assert DigitsAfter(id, "ctf-");
      } else {
        assert DigitsAfter(id, "cryptic-");
      }
    } else {
      PrefixMismatch(typ, d, "ctf");
      PrefixMismatch(typ, d, "cryptic");
    }
  }

  /** `typ-d` with a type other than `word` never passes as `word-` followed by digits. */
  lemma PrefixMismatch(typ: string, d: string, word: string)
    requires typ != word && |word| >= 1 && '-' !in word
    ensures !DigitsAfter(typ + "-" + d, word + "-")
  {
    var id := typ + "-" + d;
    var p := word + "-";
    assert id[|typ|] == '-';
    if |typ| < |word| {
      assert p[|typ|] == word[|typ|] != '-';
      assert |id| > |p| ==> id[..|p|][|typ|] != p[|typ|];
    } else if |typ| == |word| {
      assert |id| > |p| ==> id[..|p|][..|typ|] == typ;
      assert p[..|typ|] == word;
    } else if |id| > |p| {
      assert id[|p|..][|typ| - |p|] == '-';
    }
  }

  // ---------------------------------------------------------------- the stored record

  /** `json.Unmarshal` into a `Level`: `null` and absent members leave zero values; text
      that does not parse, a non-object or a member of the wrong type is an error. */
  function DecodeLevel(text: string, codec: Codec): Option<Level> {
    match codec.decode(text)
    case None => None
    case Some(JNull) => Some(ZeroLevel)
    case Some(JObj(m)) =>
      var id := StrMember(m, "id");
      var answer := StrMember(m, "answer");
      var markup := StrMember(m, "markup");
      var hint := StrMember(m, "sourcehint");
      var hash := StrMember(m, "public_hash");
      var leads := BoolMember(m, "leads_enabled");
      if id.None? || answer.None? || markup.None? || hint.None? || hash.None? || leads.None? then None
      else Some(Level(id.value, answer.value, markup.value, hint.value, hash.value, leads.value))
    case Some(_) => None
  }

  /** `json.Marshal` of a `Level`; the two `omitempty` members are left out when empty. */
  function LevelJson(l: Level): Json {
    var m := map["id" := JStr(l.id), "answer" := JStr(l.answer), "markup" := JStr(l.markup),
                 "sourcehint" := JStr(l.sourceHint)];
    var m := if l.publicHash != "" then m["public_hash" := JStr(l.publicHash)] else m;
    var m := if l.leadsEnabled then m["leads_enabled" := JBool(true)] else m;
    JObj(m)
  }

  /** Decoding a marshalled level gives it back, omitted members included. */
  lemma LevelRoundTrip(l: Level, codec: Codec)
    requires Lawful(codec)
    ensures DecodeLevel(codec.encode(LevelJson(l)), codec) == Some(l)
  {
    assert codec.decode(codec.encode(LevelJson(l))) == Some(LevelJson(l));
  }

  /** `GetLevel`: the ID is checked before the store is read; a missing or undecodable
      record is an error (None). */
  function LevelAt(t: Tables, id: string, codec: Codec): (r: Option<Level>)
    ensures r.Some? ==> IsValidLevelID(id) && id in t.levels && DecodeLevel(t.levels[id], codec) == r
    ensures IsValidLevelID(id) && id in t.levels ==> r == DecodeLevel(t.levels[id], codec)
  {
    if !IsValidLevelID(id) then None
    else match GetT(t, "levels", id, codec)
      case None => None
      case Some(s) => DecodeLevel(s, codec)
  }

  method GetLevel(db: Database, id: string, codec: Codec) returns (lvl: Option<Level>)
    ensures lvl == LevelAt(db.tables, id, codec)
  {
    if !IsValidLevelID(id) {
      return None;
    }
    var s := db.Get("levels", id, codec);
    if s.None? {
      return None;
    }
    lvl := DecodeLevel(s.value, codec);
  }

  // ---------------------------------------------------------------- set and delete

  /** The record `SetLevelHandler` writes: the new fields, the hash of the new answer,
      and the previous record's leads flag when that record decodes. */
  function NewLevel(t: Tables, id: string, answer: string, markup: string, source: string,
                    hash: string -> string, codec: Codec): Level {
    var prev := match GetT(t, "levels", id, codec) case Some(s) => DecodeLevel(s, codec) case None => None;
    Level(id, answer, markup, source, hash(answer), prev.Some? && prev.value.leadsEnabled)
  }

  /** `SetLevelHandler`: the status and the tables after it. */
  function SetLevelT(t: Tables, id: string, answer: string, markup: string, source: string,
                     hash: string -> string, now: int, codec: Codec): (Tables, int) {
    if !IsValidLevelID(id) then (t, 400)
    else
      var r := SetT(t, "levels", id, codec.encode(LevelJson(NewLevel(t, id, answer, markup, source, hash, codec))), now, codec);
      (r.0, if r.1.Failed? then 500 else 200)
  }

  method SetLevel(db: Database, id: string, answer: string, markup: string, source: string,
                  hash: string -> string, now: int, codec: Codec) returns (code: int)
    modifies db
    ensures (db.tables, code) == SetLevelT(old(db.tables), id, answer, markup, source, hash, now, codec)
  {
    if !IsValidLevelID(id) {
      return 400;
    }
    var lvl := Level(id, answer, markup, source, hash(answer), false);
    var existing := db.Get("levels", id, codec);
    if existing.Some? {
      var prev := DecodeLevel(existing.value, codec);
      if prev.Some? {
        lvl := lvl.(leadsEnabled := prev.value.leadsEnabled);
      }
    }
    var status := db.Set("levels", id, codec.encode(LevelJson(lvl)), now, codec);
    if status.Failed? {
      return 500;
    }
    return 200;
  }

  /** An invalid ID is refused with 400 and nothing is written. A valid one stores the
      new level, with the hash of the new answer and the leads flag of the record it
      replaces (off when there was none or it did not decode), and no other level moves. */
  lemma SetLevelStores(t: Tables, id: string, answer: string, markup: string, source: string,
                       hash: string -> string, now: int, codec: Codec, other: string)
    requires Lawful(codec)
    ensures var r := SetLevelT(t, id, answer, markup, source, hash, now, codec);
      (!IsValidLevelID(id) ==> r == (t, 400))
      && (IsValidLevelID(id) ==>
            r.1 == 200
            && LevelAt(r.0, id, codec) == Some(Level(id, answer, markup, source, hash(answer),
                 LevelAt(t, id, codec).Some? && LevelAt(t, id, codec).value.leadsEnabled))
            && (other != id ==> LevelAt(r.0, other, codec) == LevelAt(t, other, codec)))
  {
    if IsValidLevelID(id) {
      LevelRoundTrip(NewLevel(t, id, answer, markup, source, hash, codec), codec);
    }
  }

  /** `DeleteLevelHandler`. */
  function DeleteLevelT(t: Tables, id: string, codec: Codec): (Tables, int) {
    if !IsValidLevelID(id) then (t, 400)
    else
      var r := DeleteT(t, "levels", id, codec);
      (r.0, if r.1.Failed? then 500 else 200)
  }

  method DeleteLevel(db: Database, id: string, codec: Codec) returns (code: int)
    modifies db
    ensures (db.tables, code) == DeleteLevelT(old(db.tables), id, codec)
  {
    if !IsValidLevelID(id) {
      return 400;
    }
    var status := db.Delete("levels", id, codec);
    if status.Failed? {
      return 500;
    }
    return 200;
  }

  /** An invalid ID is refused with 400 and nothing changes; a valid one is gone
      afterwards and every other level is untouched. */
  lemma DeleteLevelRemoves(t: Tables, id: string, codec: Codec, other: string)
    ensures var r := DeleteLevelT(t, id, codec);
      (!IsValidLevelID(id) ==> r == (t, 400))
      && (IsValidLevelID(id) ==>
            (r.1 == 200 && LevelAt(r.0, id, codec) == None
             && (other != id ==> LevelAt(r.0, other, codec) == LevelAt(t, other, codec))))
  {
  }

  // ---------------------------------------------------------------- listing

  /** `GetAllLevels`: every stored level that decodes, by key. */
  function AllLevels(table: map<string, string>, codec: Codec): (m: map<string, Level>)
    ensures forall k :: k in m <==> k in table && DecodeLevel(table[k], codec).Some?
    ensures forall k :: k in m ==> DecodeLevel(table[k], codec) == Some(m[k])
  {
    map k | k in table && DecodeLevel(table[k], codec).Some? :: DecodeLevel(table[k], codec).value
  }

  method GetAllLevels(db: Database, ks: seq<string>, codec: Codec) returns (out: map<string, Level>)
    requires Enumerates(db.tables.levels, ks)
    ensures out == AllLevels(db.tables.levels, codec)
  {
    var data := db.GetAll("levels", codec);
    var table := data.value;
    out := map[];
    for i := 0 to |ks|
      invariant forall k :: k in out <==> k in ks[..i] && DecodeLevel(table[k], codec).Some?
      invariant forall k :: k in out ==> DecodeLevel(table[k], codec) == Some(out[k])
    {
      assert ks[i] in table;
      var lvl := DecodeLevel(table[ks[i]], codec);
      if lvl.Some? {
        out := out[ks[i] := lvl.value];
      }
    }
    assert ks[..|ks|] == ks;
  }

  /** One level of the admin listing: its key, record, number and type. */
  datatype Item = Item(id: string, lvl: Level, n: int, typ: string)

  /** A key `type-number` splits at its first `-`; a key without `-` or whose number
      does not parse (`strconv.Atoi`) is skipped. */
  function Classify(id: string, lvl: Level): (r: Option<Item>)
    ensures r.Some? ==> r.value.id == id && r.value.lvl == lvl
  {
    var parts := SplitN(id, '-', 2);
    if |parts| != 2 then None
    else match ParseInt(parts[1])
      case None => None
      case Some(n) => Some(Item(id, lvl, n, parts[0]))
  }

  /** The levels of one type, in the order `range` visits the keys. */
  function Bucket(levels: map<string, Level>, ks: seq<string>, typ: string): (r: seq<Item>)
    requires forall k :: k in ks ==> k in levels
    ensures forall i :: 0 <= i < |r| ==> r[i].typ == typ
  {
    if |ks| == 0 then []
    else
      var k := ks[|ks| - 1];
      var front := Bucket(levels, ks[..|ks| - 1], typ);
      match Classify(k, levels[k])
      case Some(it) => if it.typ == typ then front + [it] else front
      case None => front
  }

  predicate ItemLess(a: Item, b: Item) {
    a.n < b.n
  }

  lemma ItemStrictWeak(s: seq<Item>)
    ensures StrictWeakOn(s, ItemLess)
  {
  }

  /** One section of the listing: the type's levels ordered by number. */
  function Section(levels: map<string, Level>, ks: seq<string>, typ: string): (r: seq<Item>)
    requires forall k :: k in ks ==> k in levels
    ensures multiset(r) == multiset(Bucket(levels, ks, typ))
    ensures SortedBy(r, ItemLess)
    ensures forall i :: 0 <= i < |r| ==> r[i].typ == typ
  {
    var b := Bucket(levels, ks, typ);
    ItemStrictWeak(b);
    var r := SortBy(b, ItemLess);
    forall i | 0 <= i < |r| ensures r[i].typ == typ {
      assert r[i] in multiset(b);
    }
    r
  }

  /** What the page shows: a heading per non-empty section and a card per level with
      the values substituted into the card template. */
  datatype Block = Heading(title: string) | Card(id: string, sourceHint: string, answer: string, leadsOn: bool)

  function CardOf(it: Item): Block {
    Card(it.lvl.id, it.lvl.sourceHint, it.lvl.answer, it.lvl.leadsEnabled)
  }

  function Rendered(title: string, items: seq<Item>): (r: seq<Block>)
    ensures |items| == 0 ==> r == []
    ensures |items| > 0 ==>
      (|r| == |items| + 1 && r[0] == Heading(title)
       && forall i :: 0 <= i < |items| ==> r[i + 1] == CardOf(items[i]))
  {
    if |items| == 0 then [] else [Heading(title)] + seq(|items|, i requires 0 <= i < |items| => CardOf(items[i]))
  }

  /** The JSON side map: each rendered level under its key. */
  function DataOf(items: seq<Item>): map<string, Level> {
    if |items| == 0 then map[]
    else DataOf(items[..|items| - 1])[items[|items| - 1].id := items[|items| - 1].lvl]
  }

  /** `GenerateAdminLevelsHTML` (template text aside): the cryptic section, then the
      ctf section. `ks` is the order in which `range` visits the decoded levels. */
  function AdminListing(levels: map<string, Level>, ks: seq<string>): (r: (seq<Block>, map<string, Level>))
    requires forall k :: k in ks ==> k in levels
  {
    var cs := Section(levels, ks, "cryptic");
    var fs := Section(levels, ks, "ctf");
    (Rendered("Cryptic", cs) + Rendered("CTF", fs), DataOf(cs + fs))
  }

  /** A level is listed when its key is `cryptic-<int>` or `ctf-<int>`. */
  predicate Listable(id: string, lvl: Level) {
    Classify(id, lvl).Some? && Classify(id, lvl).value.typ in {"cryptic", "ctf"}
  }

  /** The loop that sorts the visited levels into the two buckets. */
  method Buckets(levels: map<string, Level>, ks: seq<string>) returns (cryptic: seq<Item>, ctf: seq<Item>)
    requires forall k :: k in ks ==> k in levels
    ensures cryptic == Bucket(levels, ks, "cryptic") && ctf == Bucket(levels, ks, "ctf")
  {
    cryptic, ctf := [], [];
    for i := 0 to |ks|
      invariant cryptic == Bucket(levels, ks[..i], "cryptic")
      invariant ctf == Bucket(levels, ks[..i], "ctf")
    {
      assert ks[..i + 1][..i] == ks[..i];
      var id := ks[i];
      var parts := SplitN(id, '-', 2);
      if |parts| != 2 {
        continue;
      }
      var typ := parts[0];
      var num := ParseInt(parts[1]);
      if num.None? {
        continue;
      }
      var e := Item(id, levels[id], num.value, typ);
      if typ == "cryptic" {
        cryptic := cryptic + [e];
      } else if typ == "ctf" {
        ctf := ctf + [e];
      }
    }
    assert ks[..|ks|] == ks;
  }

  /** `render` over one section, after its heading. */
  method RenderSection(title: string, items: seq<Item>, data0: map<string, Level>, ghost before: seq<Item>)
    returns (blocks: seq<Block>, data: map<string, Level>)
    requires data0 == DataOf(before)
    ensures blocks == Rendered(title, items)
    ensures data == DataOf(before + items)
  {
    blocks, data := [], data0;
    if |items| == 0 {
      assert before + items == before;
      return;
    }
    blocks := blocks + [Heading(title)];
    assert before + items[..0] == before;
    for i := 0 to |items|
      invariant blocks == [Heading(title)] + seq(i, k requires 0 <= k < i => CardOf(items[k]))
      invariant data == DataOf(before + items[..i])
    {
      assert (before + items[..i + 1])[..|before| + i] == before + items[..i];
      assert (before + items[..i + 1])[|before| + i] == items[i];
      blocks := blocks + [CardOf(items[i])];
      data := data[items[i].id := items[i].lvl];
    }
    assert items[..|items|] == items;
  }

  method AdminLevels(db: Database, tableOrder: seq<string>, ks: seq<string>, codec: Codec)
    returns (blocks: seq<Block>, data: map<string, Level>)
    requires Enumerates(db.tables.levels, tableOrder)
    requires Enumerates(AllLevels(db.tables.levels, codec), ks)
    ensures (blocks, data) == AdminListing(AllLevels(db.tables.levels, codec), ks)
  {
    var levels := GetAllLevels(db, tableOrder, codec);
    EnumeratedKeys(levels, ks);
    blocks, data := RenderLevels(levels, ks);
  }

  /** The page built from the decoded levels. */
  method RenderLevels(levels: map<string, Level>, ks: seq<string>) returns (blocks: seq<Block>, data: map<string, Level>)
    requires forall k :: k in ks ==> k in levels
    ensures (blocks, data) == AdminListing(levels, ks)
  {
    var cryptic, ctf := Buckets(levels, ks);
    ItemStrictWeak(cryptic);
    ItemStrictWeak(ctf);
    cryptic := SortBy(cryptic, ItemLess);
    ctf := SortBy(ctf, ItemLess);
    assert cryptic == Section(levels, ks, "cryptic");
    assert ctf == Section(levels, ks, "ctf");
    var head, d1 := RenderSection("Cryptic", cryptic, map[], []);
    assert [] + cryptic == cryptic;
    var tail, d2 := RenderSection("CTF", ctf, d1, cryptic);
    blocks, data := head + tail, d2;
  }

  // ---------------------------------------------------------------- listing properties

  lemma BucketMembers(levels: map<string, Level>, ks: seq<string>, typ: string, it: Item)
    requires forall k :: k in ks ==> k in levels
    ensures it in Bucket(levels, ks, typ) <==>
      it.typ == typ && it.id in ks && Classify(it.id, levels[it.id]) == Some(it)
  {
    if it in Bucket(levels, ks, typ) {
      BucketSound(levels, ks, typ, it);
    }
    if it.typ == typ && it.id in ks && Classify(it.id, levels[it.id]) == Some(it) {
      BucketComplete(levels, ks, typ, it);
    }
  }

  /** Every bucketed item is the classification of one of the keys. */
  lemma {:induction false} BucketSound(levels: map<string, Level>, ks: seq<string>, typ: string, it: Item)
    requires forall k :: k in ks ==> k in levels
    requires it in Bucket(levels, ks, typ)
    ensures it.typ == typ && it.id in ks && Classify(it.id, levels[it.id]) == Some(it)
  {
    var front := ks[..|ks| - 1];
    var last := ks[|ks| - 1];
    assert ks[..|ks| - 1] == front;
    var b := Bucket(levels, front, typ);
    if it in b {
      BucketSound(levels, front, typ, it);
      assert it.id in ks;
    } else {
      var c := Classify(last, levels[last]);
      assert c.Some? && c.value.typ == typ && Bucket(levels, ks, typ) == b + [c.value];
      assert it == c.value;
    }
  }

  /** Every key that classifies into the type is bucketed. */
  lemma {:induction false} BucketComplete(levels: map<string, Level>, ks: seq<string>, typ: string, it: Item)
    requires forall k :: k in ks ==> k in levels
    requires it.typ == typ && it.id in ks && Classify(it.id, levels[it.id]) == Some(it)
    ensures it in Bucket(levels, ks, typ)
  {
    var front := ks[..|ks| - 1];
    var last := ks[|ks| - 1];
    assert ks[..|ks| - 1] == front;
    if it.id == last {
      assert Bucket(levels, ks, typ) == Bucket(levels, front, typ) + [it];
    } else {
      assert it.id in front;
      BucketComplete(levels, front, typ, it);
    }
  }

  lemma {:induction false} DataKeys(items: seq<Item>, k: string)
    ensures k in DataOf(items) <==> exists i :: 0 <= i < |items| && items[i].id == k
  {
    if |items| > 0 {
      var front := items[..|items| - 1];
      DataKeys(front, k);
      if exists i :: 0 <= i < |front| && front[i].id == k {
        var i :| 0 <= i < |front| && front[i].id == k;
        assert items[i].id == k;
      }
      if exists i :: 0 <= i < |items| && items[i].id == k {
        var i :| 0 <= i < |items| && items[i].id == k;
        if i < |front| {
          assert front[i].id == k;
        }
      }
    }
  }

  /** The listing shows exactly the levels whose key is `cryptic-<int>` or
      `ctf-<int>`: every other key is left out. */
  lemma ListingExactly(levels: map<string, Level>, ks: seq<string>, k: string)
    requires Enumerates(levels, ks)
    ensures k in AdminListing(levels, ks).1 <==> k in levels && Listable(k, levels[k])
  {
    var all := Section(levels, ks, "cryptic") + Section(levels, ks, "ctf");
    DataKeys(all, k);
    if k in levels && Listable(k, levels[k]) {
      assert k in ks;
      ListedShown(levels, ks, k);
    }
    if exists i :: 0 <= i < |all| && all[i].id == k {
      var i :| 0 <= i < |all| && all[i].id == k;
      ShownListed(levels, ks, i);
    }
  }

  lemma ListedShown(levels: map<string, Level>, ks: seq<string>, k: string)
    requires forall k :: k in ks ==> k in levels
    requires k in ks && Listable(k, levels[k])
    ensures var all := Section(levels, ks, "cryptic") + Section(levels, ks, "ctf");
      exists i :: 0 <= i < |all| && all[i].id == k
  {
    var it := Classify(k, levels[k]).value;
    BucketMembers(levels, ks, it.typ, it);
    InSection(levels, ks, it.typ, it);
    FoundIn(Section(levels, ks, "cryptic"), Section(levels, ks, "ctf"), it);
  }

  lemma FoundIn(cs: seq<Item>, fs: seq<Item>, it: Item)
    requires it in cs || it in fs
    ensures exists i :: 0 <= i < |cs + fs| && (cs + fs)[i].id == it.id
  {
    if it in cs {
      var i :| 0 <= i < |cs| && cs[i] == it;
      assert (cs + fs)[i] == it;
    } else {
      var i :| 0 <= i < |fs| && fs[i] == it;
      assert (cs + fs)[|cs| + i] == it;
    }
  }

  lemma InSection(levels: map<string, Level>, ks: seq<string>, typ: string, it: Item)
    requires forall k :: k in ks ==> k in levels
    requires it in Bucket(levels, ks, typ)
    ensures it in Section(levels, ks, typ)
  {
    assert it in multiset(Bucket(levels, ks, typ));
    assert it in multiset(Section(levels, ks, typ));
  }

  lemma ShownListed(levels: map<string, Level>, ks: seq<string>, i: nat)
    requires forall k :: k in ks ==> k in levels
    requires i < |Section(levels, ks, "cryptic") + Section(levels, ks, "ctf")|
    ensures var it := (Section(levels, ks, "cryptic") + Section(levels, ks, "ctf"))[i];
      it.id in levels && Listable(it.id, levels[it.id])
  {
    var cs := Section(levels, ks, "cryptic");
    var fs := Section(levels, ks, "ctf");
    var it := (cs + fs)[i];
    if i < |cs| {
      assert it == cs[i];
      assert it in multiset(Bucket(levels, ks, "cryptic"));
      BucketMembers(levels, ks, "cryptic", it);
    } else {
      assert it == fs[i - |cs|];
      assert it in multiset(Bucket(levels, ks, "ctf"));
      BucketMembers(levels, ks, "ctf", it);
    }
  }

  /** The cryptic cards come first, then the ctf cards, each section ascending by number. */
  lemma ListingOrder(levels: map<string, Level>, ks: seq<string>, i: nat, j: nat)
    requires forall k :: k in ks ==> k in levels
    ensures var cs := Section(levels, ks, "cryptic"); var fs := Section(levels, ks, "ctf");
      var all := cs + fs;
      i < j < |all| ==>
        (all[i].typ == "cryptic" || all[j].typ == "ctf")
        && (all[i].typ == all[j].typ ==> all[i].n <= all[j].n)
  {
    var cs := Section(levels, ks, "cryptic");
    var fs := Section(levels, ks, "ctf");
    var all := cs + fs;
    if i < j < |all| {
      if j < |cs| {
        assert !ItemLess(cs[j], cs[i]);
      } else if i >= |cs| {
        assert !ItemLess(fs[j - |cs|], fs[i - |cs|]);
      }
    }
  }

  // ---------------------------------------------------------------- submission

  /** The account map the submit and current-level handlers work on: the decoded record,
      the nil map left when the record is not a JSON object, or the default for a
      missing record, whose `levels` is a `map[string]float64` that the handlers'
      `map[string]interface{}` assertion does not accept. */
  datatype Account = NilMap | Record(m: map<string, Json>) | Fresh

  const FreshLevels: Json := JObj(map["cryptic" := JNum(0.0), "ctf" := JNum(0.0)])

  function AccountOf(raw: Option<string>, codec: Codec): Account {
    match raw
    case None => Fresh
    case Some(s) => match GoMap(codec.decode(s)) case Some(m) => Record(m) case None => NilMap
  }

  /** The account the handlers read for `email`. */
  function StoredAccount(t: Tables, email: string, codec: Codec): Account {
    AccountOf(GetT(t, "accounts", email, codec), codec)
  }

  /** The members the handlers read (a nil map reads as empty). */
  function Fields(a: Account): map<string, Json> {
    match a
    case NilMap => map[]
    case Record(m) => m
    case Fresh => map["levels" := FreshLevels]
  }

  /** The numeric entries of an object. */
  function NumEntries(m: map<string, Json>): (r: map<string, real>)
    ensures forall k :: k in r <==> k in m && m[k].JNum?
    ensures forall k :: k in r ==> m[k] == JNum(r[k])
  {
    map k | k in m && m[k].JNum? :: m[k].n
  }

  function NumObject(l: map<string, real>): (r: map<string, Json>)
    ensures NumEntries(r) == l
  {
    var r := map k | k in l :: JNum(l[k]);
    assert NumEntries(r).Keys == l.Keys;
    r
  }

  /** `levelsMap`: the numeric entries of the record's `levels` object. */
  function LevelsMap(a: Account): map<string, real> {
    match a
    case Record(m) => if "levels" in m && m["levels"].JObj? then NumEntries(m["levels"].fields) else map[]
    case _ => map[]
  }

  /** `int(levelsMap[typ])`: a missing type is level 0. */
  function Current(a: Account, typ: string): int {
    var l := LevelsMap(a);
    Trunc(if typ in l then l[typ] else 0.0)
  }

  function TypeOf(typ: string): string {
    if typ == "" then "cryptic" else typ
  }

  /** The level a player is on, as the handlers look it up. */
  function Expected(t: Tables, email: string, typ: string, codec: Codec): Option<Level> {
    var a := StoredAccount(t, email, codec);
    LevelAt(t, LevelID(TypeOf(typ), Current(a, TypeOf(typ))), codec)
  }

  /** Why a submission stops before its answer is compared, if it does. */
  datatype Verdict = Unauthenticated | Disqualified | EventClosed | TooSoon | NoLevel | Panic | Incorrect
                   | Correct(next: string)

  /** The refusals: a disqualified account, a non-admin while `EVENT_ACTIVE` is `0`,
      and a submission less than a second after the last one. */
  function Gate(a: Account, eventActive: string, now: int): (v: Option<Verdict>)
    ensures v.Some? ==> v.value in {Disqualified, EventClosed, TooSoon}
  {
    var f := Fields(a);
    if BoolField(f, "disqualified") == Some(true) then Some(Disqualified)
    else if BoolField(f, "admin") != Some(true) && eventActive == "0" then Some(EventClosed)
    else if NumField(f, "last_submit").Some? && now - Trunc(NumField(f, "last_submit").value) < 1 then Some(TooSoon)
    else None
  }

  /** The account after a correct answer: `levels[typ]` one higher, `last_submit` now. */
  function AdvancedLevels(a: Account, typ: string): map<string, real> {
    LevelsMap(a)[typ := (Current(a, typ) + 1) as real]
  }

  function Advanced(a: Account, typ: string, now: int): map<string, Json> {
    Fields(a)["levels" := JObj(NumObject(AdvancedLevels(a, typ)))]["last_submit" := JNum(now as real)]
  }

  /** `cryptic` plus `ctf`, each truncated; a missing one counts 0. */
  function Points(l: map<string, real>): int {
    (if "cryptic" in l then Trunc(l["cryptic"]) else 0) + (if "ctf" in l then Trunc(l["ctf"]) else 0)
  }

  /** The account's name when it is a non-empty string, else the email. */
  function DisplayName(f: map<string, Json>, email: string): string {
    match StrField(f, "name")
    case Some(n) => if n != "" then n else email
    case None => email
  }

  function BoardJson(email: string, name: string, points: int, now: int): Json {
    JObj(map["email" := JStr(email), "name" := JStr(name), "points" := JNum(points as real), "time" := JNum(now as real)])
  }

  function SubmitLog(typ: string, answer: string, outcome: string): string {
    "submit|" + typ + "|" + TrimSpace(answer) + "|" + outcome
  }

  function CorrectOps(a: Account, typ: string, email: string, answer: string, now: int, codec: Codec): seq<Op> {
    var acct := Advanced(a, typ, now);
    [Put("accounts", email, codec.encode(JObj(acct))),
     Put("leaderboard", email, codec.encode(BoardJson(email, DisplayName(acct, email), Points(AdvancedLevels(a, typ)), now))),
     Remove("messages/" + email, typ),
     Put("logs", email, SubmitLog(typ, answer, "correct"))]
  }

  function IncorrectOps(a: Account, typ: string, email: string, answer: string, now: int, codec: Codec): seq<Op> {
    [Put("accounts", email, codec.encode(JObj(Fields(a)["last_submit" := JNum(now as real)]))),
     Put("logs", email, SubmitLog(typ, answer, "incorrect"))]
  }

  /** `SubmitHandler` as a verdict and the writes it makes. `session` and `email` are
      the cookie values ("" when absent), `eventActive` is `EVENT_ACTIVE`. */
  function SubmitPlan(t: Tables, session: string, email: string, answer: string, typQ: string,
                      eventActive: string, now: int, codec: Codec): (r: (Verdict, seq<Op>))
    ensures r.1 != [] ==> r.0.Correct? || r.0 == Incorrect
    ensures r.0.Correct? || r.0 == Incorrect ==>
      session != "" && email != "" && Expected(t, email, typQ, codec).Some?
      && (r.0.Correct? <==> TrimSpace(Expected(t, email, typQ, codec).value.answer) == TrimSpace(answer))
    ensures r.0 == NoLevel ==> Expected(t, email, typQ, codec).None?
  {
    var typ := TypeOf(typQ);
    if session == "" || email == "" then (Unauthenticated, [])
    else
      var a := StoredAccount(t, email, codec);
      match Gate(a, eventActive, now)
      case Some(v) => (v, [])
      case None => AnswerPlan(t, a, typ, email, answer, now, codec)
  }

  /** The part of `SubmitHandler` after the refusals: the current level is looked up
      and the answer compared with it. */
  function AnswerPlan(t: Tables, a: Account, typ: string, email: string, answer: string, now: int, codec: Codec): (Verdict, seq<Op>) {
    var curr := Current(a, typ);
    match LevelAt(t, LevelID(typ, curr), codec)
    case None => (NoLevel, [])
    case Some(lvl) =>
      if a.NilMap? then (Panic, [])
      else if TrimSpace(lvl.answer) == TrimSpace(answer) then
        (Correct(LevelID(typ, curr + 1)), CorrectOps(a, typ, email, answer, now, codec))
      else (Incorrect, IncorrectOps(a, typ, email, answer, now, codec))
  }

  /** A level as shown to a player: never with its answer. */
  function Blank(l: Option<Level>): (r: Option<Level>)
    ensures r.Some? <==> l.Some?
    ensures r.Some? ==> r.value.answer == "" && r.value == l.value.(answer := "")
  {
    match l case Some(v) => Some(v.(answer := "")) case None => None
  }

  /** The response: an HTTP error, `{"success": false}`, `{"success": true, "next_level": …}`,
      or nothing when the handler panics. */
  datatype Reply = HttpError(code: int, message: string) | Failure | Success(next: Option<Level>) | Aborted

  function ReplyOf(v: Verdict, after: Tables, codec: Codec): (r: Reply)
    ensures r.Success? ==> v.Correct? && r.next == Blank(LevelAt(after, v.next, codec))
    ensures r.Success? ==> r.next.None? || r.next.value.answer == ""
  {
    match v
    case Unauthenticated => HttpError(401, "unauthenticated")
    case Disqualified => HttpError(403, "disqualified")
    case EventClosed => HttpError(403, "event not active")
    case Panic => Aborted
    case Correct(next) => Success(Blank(LevelAt(after, next, codec)))
    case _ => Failure
  }

  /** The `levels` loop: copies the numeric entries of the record's `levels` object. */
  method ReadLevels(a: Account) returns (levels: map<string, real>)
    ensures levels == LevelsMap(a)
  {
    levels := map[];
    if !a.Record? || "levels" !in a.m || !a.m["levels"].JObj? {
      return;
    }
    var lm := a.m["levels"].fields;
    var rest := lm.Keys;
    while rest != {}
      invariant rest <= lm.Keys
      invariant forall k :: k in levels <==> k in lm && k !in rest && lm[k].JNum?
      invariant forall k :: k in levels ==> lm[k] == JNum(levels[k])
      decreases rest
    {
      var k :| k in rest;
      if lm[k].JNum? {
        levels := levels[k := lm[k].n];
      }
      rest := rest - {k};
    }
  }

  method Submit(db: Database, session: string, email: string, answer: string, typQ: string,
                eventActive: string, now: int, codec: Codec) returns (reply: Reply)
    modifies db
    ensures var p := SubmitPlan(old(db.tables), session, email, answer, typQ, eventActive, now, codec);
      db.tables == ApplyAll(old(db.tables), p.1, now, codec).0 && reply == ReplyOf(p.0, db.tables, codec)
  {
    ghost var t0 := db.tables;
    ghost var p := SubmitPlan(t0, session, email, answer, typQ, eventActive, now, codec);
    var typ := if typQ == "" then "cryptic" else typQ;
    assert typ == TypeOf(typQ);
    if session == "" || email == "" {
      return HttpError(401, "unauthenticated");
    }
    var acctRaw := db.Get("accounts", email, codec);
    var acct := AccountOf(acctRaw, codec);
    var f := Fields(acct);
    if BoolField(f, "disqualified") == Some(true) {
      assert p == (Disqualified, []);
      return HttpError(403, "disqualified");
    }
    if BoolField(f, "admin") != Some(true) && eventActive == "0" {
      assert p == (EventClosed, []);
      return HttpError(403, "event not active");
    }
    var last := NumField(f, "last_submit");
    if last.Some? && now - Trunc(last.value) < 1 {
      assert p == (TooSoon, []);
      return Failure;
    }
    assert Gate(acct, eventActive, now) == None;
    reply := SubmitAnswer(db, acct, typ, email, answer, now, codec);
  }

  method SubmitAnswer(db: Database, acct: Account, typ: string, email: string, answer: string, now: int, codec: Codec)
    returns (reply: Reply)
    modifies db
    ensures var p := AnswerPlan(old(db.tables), acct, typ, email, answer, now, codec);
      db.tables == ApplyAll(old(db.tables), p.1, now, codec).0 && reply == ReplyOf(p.0, db.tables, codec)
  {
    ghost var p := AnswerPlan(db.tables, acct, typ, email, answer, now, codec);
    var levelsMap := ReadLevels(acct);
    var curr := Trunc(if typ in levelsMap then levelsMap[typ] else 0.0);
    assert curr == Current(acct, typ);
    var lvl := GetLevel(db, LevelID(typ, curr), codec);
    if lvl.None? {
      assert p == (NoLevel, []);
      return Failure;
    }
    if acct.NilMap? {
      assert p == (Panic, []);
      return Aborted;
    }
    if TrimSpace(lvl.value.answer) == TrimSpace(answer) {
      assert p.0 == Correct(LevelID(typ, Current(acct, typ) + 1));
      assert p.1 == CorrectOps(acct, typ, email, answer, now, codec);
      reply := RecordCorrect(db, acct, levelsMap, typ, email, answer, now, codec);
    } else {
      assert p == (Incorrect, IncorrectOps(acct, typ, email, answer, now, codec));
      RecordIncorrect(db, acct, typ, email, answer, now, codec);
      reply := Failure;
    }
  }

  /** The writes after a correct answer, and the next level for the response. */
  method RecordCorrect(db: Database, acct: Account, levels: map<string, real>, typ: string, email: string,
                       answer: string, now: int, codec: Codec) returns (reply: Reply)
    requires levels == LevelsMap(acct)
    modifies db
    ensures db.tables == ApplyAll(old(db.tables), CorrectOps(acct, typ, email, answer, now, codec), now, codec).0
    ensures reply == ReplyOf(Correct(LevelID(typ, Current(acct, typ) + 1)), db.tables, codec)
  {
    var curr := WriteCorrect(db, acct, levels, typ, email, answer, now, codec);
    reply := NextLevelReply(db, LevelID(typ, curr + 1), codec);
  }

  /** The `next_level` response: the level now at `id`, without its answer. */
  method NextLevelReply(db: Database, id: string, codec: Codec) returns (reply: Reply)
    ensures reply == ReplyOf(Correct(id), db.tables, codec)
  {
    var next := GetLevel(db, id, codec);
    reply := Success(Blank(next));
  }

  method WriteCorrect(db: Database, acct: Account, levels: map<string, real>, typ: string, email: string,
                      answer: string, now: int, codec: Codec) returns (curr: int)
    requires levels == LevelsMap(acct)
    modifies db
    ensures db.tables == ApplyAll(old(db.tables), CorrectOps(acct, typ, email, answer, now, codec), now, codec).0
    ensures curr == Current(acct, typ)
  {
    curr := Trunc(if typ in levels then levels[typ] else 0.0);
    assert curr == Current(acct, typ);
    var levelsMap := levels[typ := (curr + 1) as real];
    assert levelsMap == AdvancedLevels(acct, typ);
    var fields := Fields(acct)["levels" := JObj(NumObject(levelsMap))]["last_submit" := JNum(now as real)];
    assert fields == Advanced(acct, typ, now);
    var ops := [Put("accounts", email, codec.encode(JObj(fields)))];
    var total := 0;
    if "cryptic" in levelsMap {
      total := total + Trunc(levelsMap["cryptic"]);
    }
    if "ctf" in levelsMap {
      total := total + Trunc(levelsMap["ctf"]);
    }
    assert total == Points(levelsMap);
    var name := DisplayName(fields, email);
    ops := ops + [Put("leaderboard", email, codec.encode(BoardJson(email, name, total, now)))];
    ops := ops + [Remove("messages/" + email, typ)];
    ops := ops + [Put("logs", email, SubmitLog(typ, answer, "correct"))];
    assert ops == CorrectOps(acct, typ, email, answer, now, codec);
    var _ := db.Apply(ops, now, codec);
  }

  /** The writes after a wrong answer. */
  method RecordIncorrect(db: Database, acct: Account, typ: string, email: string, answer: string, now: int, codec: Codec)
    modifies db
    ensures db.tables == ApplyAll(old(db.tables), IncorrectOps(acct, typ, email, answer, now, codec), now, codec).0
  {
    var fields := Fields(acct)["last_submit" := JNum(now as real)];
    var ops := [Put("accounts", email, codec.encode(JObj(fields))),
                Put("logs", email, SubmitLog(typ, answer, "incorrect"))];
    var _ := db.Apply(ops, now, codec);
  }

  // ---------------------------------------------------------------- submission properties

  /** Refusals write nothing: a disqualified account and a non-admin outside the event
      get 403, a second submission within a second gets `success: false`. */
  lemma SubmitRefusals(t: Tables, session: string, email: string, answer: string, typQ: string,
                       eventActive: string, now: int, codec: Codec)
    requires session != "" && email != ""
    ensures var a := StoredAccount(t, email, codec); var f := Fields(a);
      var p := SubmitPlan(t, session, email, answer, typQ, eventActive, now, codec);
      (BoolField(f, "disqualified") == Some(true) ==> p == (Disqualified, []))
      && ((BoolField(f, "disqualified") != Some(true) && BoolField(f, "admin") != Some(true) && eventActive == "0")
          ==> p == (EventClosed, []))
      && (p.0 == TooSoon <==> Gate(a, eventActive, now) == Some(TooSoon))
      && (p.0 == TooSoon ==> p.1 == [] && exists last :: NumField(f, "last_submit") == Some(last) && now - Trunc(last) < 1)
  {
  }

  /** After a correct answer the stored account is the advanced record with the
      leaderboard's `name`, `points` and `time` merged in (the leaderboard shares the
      users table); clearing messages and logging leave it alone. */
  lemma CorrectUsers(t: Tables, a: Account, typ: string, email: string, answer: string, now: int, codec: Codec)
    requires Lawful(codec)
    ensures ApplyAll(t, CorrectOps(a, typ, email, answer, now, codec), now, codec).0.users
      == t.users[email := codec.encode(JObj(CorrectAccount(a, typ, email, now)))]
  {
    var acct := Advanced(a, typ, now);
    var board := BoardJson(email, DisplayName(acct, email), Points(AdvancedLevels(a, typ)), now);
    UsersAfterFour(t, CorrectOps(a, typ, email, answer, now, codec), email, acct, board.fields, typ,
                   SubmitLog(typ, answer, "correct"), now, codec);
  }

  lemma UsersAfterFour(t: Tables, ops: seq<Op>, email: string, acct: map<string, Json>, board: map<string, Json>,
                       typ: string, log: string, now: int, codec: Codec)
    requires Lawful(codec)
    requires ops == [Put("accounts", email, codec.encode(JObj(acct))), Put("leaderboard", email, codec.encode(JObj(board))),
                     Remove("messages/" + email, typ), Put("logs", email, log)]
    ensures ApplyAll(t, ops, now, codec).0.users == t.users[email := codec.encode(JObj(Merge(acct, board)))]
  {
    ApplyFour(t, ops, now, codec);
    var t1 := Perform(t, ops[0], now, codec).0;
    PutAccount(t, email, codec.encode(JObj(acct)), now, codec);
    var t2 := Perform(t1, ops[1], now, codec).0;
    PutBoard(t1, email, acct, board, now, codec);
    var t3 := Perform(t2, ops[2], now, codec).0;
    ClearKeepsUsers(t2, email, typ, now, codec);
    LogKeepsUsers(t3, email, log, now, codec);
  }

  /** The record a correct answer leaves in the users table. */
  function CorrectAccount(a: Account, typ: string, email: string, now: int): map<string, Json> {
    var acct := Advanced(a, typ, now);
    Merge(acct, BoardJson(email, DisplayName(acct, email), Points(AdvancedLevels(a, typ)), now).fields)
  }

  lemma ApplyFour(t: Tables, ops: seq<Op>, now: int, codec: Codec)
    requires |ops| == 4
    ensures ApplyAll(t, ops, now, codec).0 == Perform(Perform(Perform(Perform(t, ops[0], now, codec).0,
      ops[1], now, codec).0, ops[2], now, codec).0, ops[3], now, codec).0
  {
    ApplyStep(t, ops, 0, now, codec);
    assert ops[..0] == [];
    ApplyStep(t, ops, 1, now, codec);
    ApplyStep(t, ops, 2, now, codec);
    ApplyStep(t, ops, 3, now, codec);
    assert ops[..4] == ops;
  }

  lemma ApplyTwo(t: Tables, ops: seq<Op>, now: int, codec: Codec)
    requires |ops| == 2
    ensures ApplyAll(t, ops, now, codec).0 == Perform(Perform(t, ops[0], now, codec).0, ops[1], now, codec).0
  {
    ApplyStep(t, ops, 0, now, codec);
    assert ops[..0] == [];
    ApplyStep(t, ops, 1, now, codec);
    assert ops[..2] == ops;
  }

  lemma PutAccount(t: Tables, email: string, value: string, now: int, codec: Codec)
    ensures Perform(t, Put("accounts", email, value), now, codec).0.users == t.users[email := value]
  {
  }

  lemma PutBoard(t: Tables, email: string, acct: map<string, Json>, board: map<string, Json>, now: int, codec: Codec)
    requires Lawful(codec)
    requires email in t.users && t.users[email] == codec.encode(JObj(acct))
    ensures Perform(t, Put("leaderboard", email, codec.encode(JObj(board))), now, codec).0.users
      == t.users[email := codec.encode(JObj(Merge(acct, board)))]
  {
    assert codec.decode(codec.encode(JObj(board))) == Some(JObj(board));
    assert codec.decode(t.users[email]) == Some(JObj(acct));
  }

  lemma ClearKeepsUsers(t: Tables, email: string, typ: string, now: int, codec: Codec)
    ensures Perform(t, Remove("messages/" + email, typ), now, codec).0.users == t.users
  {
    var ns := "messages/" + email;
    assert |ns| >= 9 && ns[..9] == "messages/";
  }

  lemma LogKeepsUsers(t: Tables, email: string, value: string, now: int, codec: Codec)
    ensures Perform(t, Put("logs", email, value), now, codec).0.users == t.users
  {
  }

  /** `b` is `a` after a correct answer in `typ` at `now`: one level up in that type
      and no other, `last_submit` stamped, and `points` the sum of the cryptic and ctf
      levels. */
  ghost predicate AdvancedFrom(b: Account, a: Account, typ: string, now: int) {
    b.Record?
    && Current(b, typ) == Current(a, typ) + 1
    && (forall other :: other != typ ==> Current(b, other) == Current(a, other))
    && NumField(Fields(b), "last_submit") == Some(now as real)
    && NumField(Fields(b), "points") == Some((Current(b, "cryptic") + Current(b, "ctf")) as real)
  }

  /** A correct answer stores the advanced account. */
  lemma SubmitCorrectAdvances(t: Tables, a: Account, typ: string, email: string, answer: string, now: int, codec: Codec)
    requires Lawful(codec)
    ensures AdvancedFrom(StoredAccount(ApplyAll(t, CorrectOps(a, typ, email, answer, now, codec), now, codec).0, email, codec),
                         a, typ, now)
  {
    CorrectUsers(t, a, typ, email, answer, now, codec);
    var m := CorrectAccount(a, typ, email, now);
    var after := ApplyAll(t, CorrectOps(a, typ, email, answer, now, codec), now, codec).0;
    StoredRecord(after, email, m, codec);
    CorrectAccountLevels(a, typ, email, now);
  }

  /** The facts about the record a correct answer stores, apart from the tables. */
  lemma CorrectAccountLevels(a: Account, typ: string, email: string, now: int)
    ensures AdvancedFrom(Record(CorrectAccount(a, typ, email, now)), a, typ, now)
  {
    var l := AdvancedLevels(a, typ);
    var m := CorrectAccount(a, typ, email, now);
    var b := Record(m);
    assert m["levels"] == JObj(NumObject(l));
    assert LevelsMap(b) == l;
    TruncWhole(Current(a, typ) + 1);
    TruncWhole(0);
    assert Points(l) == Current(b, "cryptic") + Current(b, "ctf");
  }

  lemma TruncWhole(n: int)
    ensures Trunc(n as real) == n
  {
  }

  /** A wrong answer only stamps `last_submit` on the account, so no level changes. */
  lemma SubmitIncorrectKeeps(t: Tables, a: Account, typ: string, email: string, answer: string, now: int, codec: Codec)
    requires Lawful(codec)
    ensures var after := ApplyAll(t, IncorrectOps(a, typ, email, answer, now, codec), now, codec).0;
      var b := StoredAccount(after, email, codec);
      Fields(b) == Fields(a)["last_submit" := JNum(now as real)]
      && (a.Record? ==> forall x :: Current(b, x) == Current(a, x))
  {
    var f := Fields(a)["last_submit" := JNum(now as real)];
    var ops := IncorrectOps(a, typ, email, answer, now, codec);
    UsersAfterTwo(t, ops, email, codec.encode(JObj(f)), SubmitLog(typ, answer, "incorrect"), now, codec);
    var after := ApplyAll(t, ops, now, codec).0;
    StoredRecord(after, email, f, codec);
  }

  /** An object stored in the users table reads back as that record. */
  lemma StoredRecord(t: Tables, email: string, m: map<string, Json>, codec: Codec)
    requires Lawful(codec)
    requires email in t.users && t.users[email] == codec.encode(JObj(m))
    ensures StoredAccount(t, email, codec) == Record(m)
  {
    assert GetT(t, "accounts", email, codec) == Some(codec.encode(JObj(m)));
    assert codec.decode(codec.encode(JObj(m))) == Some(JObj(m));
  }

  lemma UsersAfterTwo(t: Tables, ops: seq<Op>, email: string, value: string, log: string, now: int, codec: Codec)
    requires ops == [Put("accounts", email, value), Put("logs", email, log)]
    ensures ApplyAll(t, ops, now, codec).0.users == t.users[email := value]
  {
    ApplyTwo(t, ops, now, codec);
    PutAccount(t, email, value, now, codec);
    LogKeepsUsers(Perform(t, ops[0], now, codec).0, email, log, now, codec);
  }

  // ---------------------------------------------------------------- current level

  /** What `CurrentLevelHandler` shows when the player's level is missing. */
  const Placeholder: Level := ZeroLevel.(markup := "<p>No level available currently. Please check back later.</p>")

  /** The current-level response: 401 without a session or email cookie, else the
      player's level with its answer blanked, or the placeholder. */
  datatype View = ViewError(code: int, message: string) | Shown(level: Level)

  function CurrentPlan(t: Tables, session: string, email: string, typQ: string, codec: Codec): (v: View)
    ensures v.Shown? <==> session != "" && email != ""
    ensures v.Shown? ==> v.level.answer == ""
    ensures v.ViewError? ==> v.code == 401
  {
    if session == "" || email == "" then ViewError(401, "unauthenticated")
    else match Expected(t, email, typQ, codec)
      case Some(l) => Shown(l.(answer := ""))
      case None => Shown(Placeholder)
  }

  method CurrentLevel(db: Database, session: string, email: string, typQ: string, codec: Codec) returns (v: View)
    ensures v == CurrentPlan(db.tables, session, email, typQ, codec)
  {
    if session == "" || email == "" {
      return ViewError(401, "unauthenticated");
    }
    var acctRaw := db.Get("accounts", email, codec);
    var acct := AccountOf(acctRaw, codec);
    var typ := if typQ == "" then "cryptic" else typQ;
    var levelsMap := ReadLevels(acct);
    var curr := Trunc(if typ in levelsMap then levelsMap[typ] else 0.0);
    var lvl := GetLevel(db, LevelID(typ, curr), codec);
    if lvl.None? {
      return Shown(Placeholder);
    }
    v := Shown(lvl.value.(answer := ""));
  }

  /** The shape of a plan that accepts an answer. */
  lemma CorrectPlan(t: Tables, session: string, email: string, answer: string, typQ: string,
                    eventActive: string, now: int, codec: Codec)
    requires SubmitPlan(t, session, email, answer, typQ, eventActive, now, codec).0.Correct?
    ensures var a := StoredAccount(t, email, codec); var typ := TypeOf(typQ);
      SubmitPlan(t, session, email, answer, typQ, eventActive, now, codec)
        == (Correct(LevelID(typ, Current(a, typ) + 1)), CorrectOps(a, typ, email, answer, now, codec))
  {
    var a := StoredAccount(t, email, codec);
    var typ := TypeOf(typQ);
    var p := SubmitPlan(t, session, email, answer, typQ, eventActive, now, codec);
    assert session != "" && email != "";
    assert Gate(a, eventActive, now) == None;
    var q := AnswerPlan(t, a, typ, email, answer, now, codec);
    assert p == q;
  }

  /** After a correct answer, the current-level handler shows exactly the level the
      submit response named as `next_level` (or the placeholder when there is none). */
  lemma CurrentAfterCorrect(t: Tables, session: string, email: string, answer: string, typQ: string,
                            eventActive: string, now: int, codec: Codec)
    requires Lawful(codec)
    requires SubmitPlan(t, session, email, answer, typQ, eventActive, now, codec).0.Correct?
    ensures var p := SubmitPlan(t, session, email, answer, typQ, eventActive, now, codec);
      var after := ApplyAll(t, p.1, now, codec).0;
      var r := ReplyOf(p.0, after, codec);
      var v := CurrentPlan(after, session, email, typQ, codec);
      r.Success? && v.Shown?
      && (r.next.Some? ==> v.level == r.next.value)
      && (r.next.None? ==> v.level == Placeholder)
  {
    var a := StoredAccount(t, email, codec);
    var typ := TypeOf(typQ);
    CorrectPlan(t, session, email, answer, typQ, eventActive, now, codec);
    SubmitCorrectAdvances(t, a, typ, email, answer, now, codec);
    var after := ApplyAll(t, CorrectOps(a, typ, email, answer, now, codec), now, codec).0;
    assert Expected(after, email, typQ, codec) == LevelAt(after, LevelID(typ, Current(a, typ) + 1), codec);
  }
}
