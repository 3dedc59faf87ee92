/** The admin user tools (handlers/user.go): reading and editing a player's
    per-type progress (a level ID and a checkpoint 0..9), the user list, and the
    reset and delete actions. The requester's email comes from the session lookup,
    which is not part of this model: it is an input (None when the lookup fails). */
module Users {
  import opened Basics
  import opened Json
  import opened Text
  import opened Store
  import Admins
  import Levels

  /** One progress entry: the first two elements of its array. */
  datatype Pair = Pair(level: Json, checkpoint: Json)

  const CtfStart: Pair := Pair(JStr("ctf-0"), JNum(0.0))

  /** The cryptic entry shown when none is stored: the current cryptic level, checkpoint 0. */
  function CrypticStart(a: Levels.Account): Pair {
    Pair(JStr(Levels.LevelID("cryptic", Levels.Current(a, "cryptic"))), JNum(0.0))
  }

  function PairJson(p: Pair): Json {
    JArr([p.level, p.checkpoint])
  }

  function ProgressJson(m: map<string, Pair>): Json {
    JObj(map k | k in m :: PairJson(m[k]))
  }

  /** The entries of a progress object that are arrays of two or more elements. */
  function Pairs(pm: map<string, Json>): (r: map<string, Pair>)
    ensures forall k :: k in r <==> k in pm && pm[k].JArr? && |pm[k].items| >= 2
  {
    map k | k in pm && pm[k].JArr? && |pm[k].items| >= 2 :: Pair(pm[k].items[0], pm[k].items[1])
  }

  /** Writing progress out and reading it back gives the same entries. */
  lemma PairsRoundTrip(m: map<string, Pair>)
    ensures Pairs(ProgressJson(m).fields) == m
  {
    var pm := ProgressJson(m).fields;
    assert Pairs(pm).Keys == m.Keys;
  }

  /** The stored `progress` member, if any. */
  function ProgressMember(a: Levels.Account): Option<Json> {
    var f := Levels.Fields(a);
    if "progress" in f then Some(f["progress"]) else None
  }

  /** A string member of the payload, or "" when it is absent or not a string. */
  function StrOr(m: map<string, Json>, k: string): string {
    match StrField(m, k) case Some(s) => s case None => ""
  }

  function TypeOr(m: map<string, Json>): string {
    var t := StrOr(m, "type");
    if t == "" then "cryptic" else t
  }

  /** The `for k, v := range pm` copy of a progress object. */
  method CopyPairs(pm: map<string, Json>) returns (prog: map<string, Pair>)
    ensures prog == Pairs(pm)
  {
    prog := map[];
    var rest := pm.Keys;
    while rest != {}
      invariant rest <= pm.Keys
      invariant forall k :: k in prog <==> k in pm && k !in rest && pm[k].JArr? && |pm[k].items| >= 2
      invariant forall k :: k in prog ==> prog[k] == Pair(pm[k].items[0], pm[k].items[1])
      decreases rest
    {
      var k :| k in rest;
      var v := pm[k];
      if v.JArr? && |v.items| >= 2 {
        prog := prog[k := Pair(v.items[0], v.items[1])];
      }
      rest := rest - {k};
    }
  }

  /** Only an admin with a session may use these tools. */
  predicate Authorised(admins: set<string>, session: string, requester: Option<string>) {
    session != "" && requester.Some? && requester.value != "" && Admins.Listed(admins, requester.value)
  }

  datatype Reply =
    | HttpError(code: int, message: string)
    | Progress(progress: map<string, Pair>)
    | Saved(progress: map<string, Pair>)
    | Success
    | Aborted
    | Listing(rows: seq<Row>)

  /** A checkpoint is a number from 0 to 9. */
  predicate Bounded(p: Pair) {
    p.checkpoint.JNum? && 0.0 <= p.checkpoint.n <= 9.0
  }

  predicate AllBounded(prog: map<string, Pair>) {
    forall k :: k in prog ==> Bounded(prog[k])
  }

  // ---------------------------------------------------------------- GET progress

  /** The progress the GET request reports: a legacy array becomes the cryptic entry
      next to a fresh ctf one; an object keeps its pair entries and gains the defaults
      it lacks; anything else gives the two defaults. */
  function Shown(a: Levels.Account): (r: map<string, Pair>)
    ensures "cryptic" in r && "ctf" in r
    ensures ProgressMember(a).None? ==> r == map["cryptic" := CrypticStart(a), "ctf" := CtfStart]
    ensures ProgressMember(a).Some? && ProgressMember(a).value.JObj? ==>
      var m := Pairs(ProgressMember(a).value.fields);
      r.Keys == m.Keys + {"cryptic", "ctf"} && forall k :: k in m ==> r[k] == m[k]
  {
    match ProgressMember(a)
    case Some(JArr(p)) =>
      if |p| >= 2 then map["cryptic" := Pair(p[0], p[1]), "ctf" := CtfStart]
      else map["cryptic" := CrypticStart(a), "ctf" := CtfStart]
    case Some(JObj(pm)) =>
      var m := Pairs(pm);
      var m1 := if "cryptic" in m then m else m["cryptic" := CrypticStart(a)];
      if "ctf" in m1 then m1 else m1["ctf" := CtfStart]
    case _ => map["cryptic" := CrypticStart(a), "ctf" := CtfStart]
  }

  /** The GET request's answer for `email`. */
  function ShowPlan(t: Tables, email: string, codec: Codec): Reply {
    if email == "" then HttpError(400, "missing email")
    else Progress(Shown(Levels.StoredAccount(t, email, codec)))
  }

  method ShowProgress(db: Database, email: string, codec: Codec) returns (reply: Reply)
    ensures reply == ShowPlan(db.tables, email, codec)
  {
    if email == "" {
      return HttpError(400, "missing email");
    }
    var acctRaw := db.Get("accounts", email, codec);
    var acct := Levels.AccountOf(acctRaw, codec);
    var prog: map<string, Pair>;
    var pv := ProgressMember(acct);
    if pv.Some? && pv.value.JArr? && |pv.value.items| >= 2 {
      prog := map["cryptic" := Pair(pv.value.items[0], pv.value.items[1]), "ctf" := CtfStart];
    } else if pv.Some? && pv.value.JObj? {
      prog := CopyPairs(pv.value.fields);
      if "cryptic" !in prog {
        var curr := CurrentOf(acct, "cryptic");
        prog := prog["cryptic" := Pair(JStr(Levels.LevelID("cryptic", curr)), JNum(0.0))];
      }
      if "ctf" !in prog {
        prog := prog["ctf" := CtfStart];
      }
    } else {
      var curr := CurrentOf(acct, "cryptic");
      prog := map["cryptic" := Pair(JStr(Levels.LevelID("cryptic", curr)), JNum(0.0)), "ctf" := CtfStart];
    }
    reply := Progress(prog);
  }

  /** `int(levelsMap[typ])` after the `levels` copy loop. */
  method CurrentOf(acct: Levels.Account, typ: string) returns (curr: int)
    ensures curr == Levels.Current(acct, typ)
  {
    var levelsMap := Levels.ReadLevels(acct);
    curr := Trunc(if typ in levelsMap then levelsMap[typ] else 0.0);
  }

  // ---------------------------------------------------------------- POST progress

  /** The progress the POST request starts from: the pair entries of an object, or a
      legacy array as the cryptic entry, or nothing. */
  function Stored(a: Levels.Account): map<string, Pair> {
    match ProgressMember(a)
    case Some(JObj(pm)) => Pairs(pm)
    case Some(JArr(p)) => if |p| >= 2 then map["cryptic" := Pair(p[0], p[1])] else map[]
    case _ => map[]
  }

  function Clamp9(n: real): real {
    if n > 9.0 then 9.0 else n
  }

  /** The entry `inc` (and an AI lead's advance) starts from: the stored entry when it
      names the player's current level (a checkpoint that is not a number reads as 0),
      otherwise the current level at checkpoint 0. */
  function Resume(prog: map<string, Pair>, a: Levels.Account, typ: string): (r: Pair)
    ensures r.level == JStr(Levels.LevelID(typ, Levels.Current(a, typ))) && r.checkpoint.JNum?
    ensures typ in prog && prog[typ].level == r.level && prog[typ].checkpoint.JNum? ==> r.checkpoint == prog[typ].checkpoint
    ensures !(typ in prog && prog[typ].level == r.level && prog[typ].checkpoint.JNum?) ==> r.checkpoint == JNum(0.0)
  {
    var levelID := Levels.LevelID(typ, Levels.Current(a, typ));
    var lvl := if typ in prog then (match prog[typ].level case JStr(s) => s case _ => "") else levelID;
    var cp := if typ in prog then (match prog[typ].checkpoint case JNum(n) => n case _ => 0.0) else 0.0;
    if lvl != levelID then Pair(JStr(levelID), JNum(0.0)) else Pair(JStr(lvl), JNum(cp))
  }

  /** `inc`: from the resumed entry, the checkpoint goes up by one, at most 9. */
  function Inc(prog: map<string, Pair>, a: Levels.Account, typ: string): (r: Pair)
    ensures r.level == JStr(Levels.LevelID(typ, Levels.Current(a, typ)))
    ensures r.checkpoint.JNum? && r.checkpoint.n <= 9.0
    ensures typ !in prog || prog[typ].level != r.level ==> r.checkpoint == JNum(1.0)
    ensures typ in prog && prog[typ].level == r.level && !prog[typ].checkpoint.JNum? ==> r.checkpoint == JNum(1.0)
    ensures typ in prog && prog[typ].level == r.level && prog[typ].checkpoint.JNum? ==>
      var c := prog[typ].checkpoint.n;
      (c < 8.0 ==> r.checkpoint.n == c + 1.0) && (c >= 8.0 ==> r.checkpoint.n == 9.0)
    ensures typ in prog && Bounded(prog[typ]) ==> 1.0 <= r.checkpoint.n
  {
    var p := Resume(prog, a, typ);
    Pair(p.level, JNum(Clamp9(p.checkpoint.n + 1.0)))
  }

  /** `set`: a string level and a numeric checkpoint clamped into [0, 9]; anything else
      is refused. */
  function SetTo(payload: map<string, Json>): (r: Option<Pair>)
    ensures r.Some? <==> ("progress" in payload && payload["progress"].JArr? && |payload["progress"].items| >= 2
                          && payload["progress"].items[0].JStr? && payload["progress"].items[1].JNum?)
    ensures r.Some? ==> Bounded(r.value) && r.value.level == payload["progress"].items[0]
    ensures r.Some? && 0.0 <= payload["progress"].items[1].n <= 9.0 ==> r.value.checkpoint == payload["progress"].items[1]
  {
    if "progress" in payload && payload["progress"].JArr? && |payload["progress"].items| >= 2 then
      var p := payload["progress"].items;
      if p[0].JStr? && p[1].JNum? then
        Some(Pair(p[0], JNum(if p[1].n < 0.0 then 0.0 else Clamp9(p[1].n))))
      else None
    else None
  }

  /** The new progress for an action, or the 400 message. */
  function Edited(prog: map<string, Pair>, a: Levels.Account, payload: map<string, Json>): (r: Result<map<string, Pair>>)
    ensures r.Ok? <==> StrOr(payload, "action") == "inc" || (StrOr(payload, "action") == "set" && SetTo(payload).Some?)
    ensures r.Err? ==> r.message == if StrOr(payload, "action") == "set" then "bad progress" else "unknown action"
    ensures r.Ok? ==> r.value.Keys == prog.Keys + {TypeOr(payload)}
    ensures r.Ok? ==> forall k :: k in prog && k != TypeOr(payload) ==> r.value[k] == prog[k]
    ensures r.Ok? && AllBounded(prog) ==> AllBounded(r.value)
  {
    var action := StrOr(payload, "action");
    var typ := TypeOr(payload);
    if action == "inc" then Ok(prog[typ := Inc(prog, a, typ)])
    else if action == "set" then
      match SetTo(payload)
      case Some(p) => Ok(prog[typ := p])
      case None => Err("bad progress")
    else Err("unknown action")
  }

  /** The POST request: its answer and the account record it stores, if any. A record
      that is not a JSON object leaves a nil map, and storing `progress` in it panics. */
  function SavePlan(t: Tables, payload: Option<map<string, Json>>, codec: Codec): (r: (Reply, Option<(string, Json)>))
    ensures r.1.Some? <==> r.0.Saved?
    ensures payload.Some? && StrOr(payload.value, "email") != "" && StrOr(payload.value, "action") !in {"inc", "set"} ==>
      r == (HttpError(400, "unknown action"), None)
    ensures r.1.Some? ==> payload.Some? && r.1.value.0 == StrOr(payload.value, "email") && r.1.value.1.JObj?
    ensures r.1.Some? ==> r.1.value.1.fields - {"progress"} == Levels.Fields(Levels.StoredAccount(t, r.1.value.0, codec)) - {"progress"}
  {
    match payload
    case None => (HttpError(400, "bad payload"), None)
    case Some(p) =>
      var email := StrOr(p, "email");
      if email == "" then (HttpError(400, "missing email"), None)
      else
        var a := Levels.StoredAccount(t, email, codec);
        match Edited(Stored(a), a, p)
        case Err(msg) => (HttpError(400, msg), None)
        case Ok(prog) =>
          if a.NilMap? then (Aborted, None)
          else (Saved(prog), Some((email, JObj(Levels.Fields(a)["progress" := ProgressJson(prog)]))))
  }

  /** The tables after storing `w` in the users table. */
  function Written(t: Tables, w: Option<(string, Json)>, codec: Codec): Tables {
    match w
    case None => t
    case Some((k, v)) => t.(users := t.users[k := codec.encode(v)])
  }

  /** The POST request, changing the progress map in place as the handler does. */
  method SaveProgress(db: Database, payload: Option<map<string, Json>>, codec: Codec) returns (reply: Reply)
    modifies db
    ensures var p := SavePlan(old(db.tables), payload, codec);
      reply == p.0 && db.tables == Written(old(db.tables), p.1, codec)
  {
    if payload.None? {
      return HttpError(400, "bad payload");
    }
    var p := payload.value;
    var email := StrOr(p, "email");
    if email == "" {
      return HttpError(400, "missing email");
    }
    ghost var t0 := db.tables;
    var acctRaw := db.Get("accounts", email, codec);
    var acct := Levels.AccountOf(acctRaw, codec);
    assert acct == Levels.StoredAccount(t0, email, codec);
    var action := StrOr(p, "action");
    var prog := StoredProgress(acct);
    var edited := EditProgress(prog, acct, p, action);
    if edited.Err? {
      return HttpError(400, edited.message);
    }
    prog := edited.value;
    if acct.NilMap? {
      return Aborted;
    }
    var record := Levels.Fields(acct)["progress" := ProgressJson(prog)];
    assert SavePlan(t0, payload, codec) == (Saved(prog), Some((email, JObj(record))));
    SetAccount(t0, email, codec.encode(JObj(record)), 0, codec);
    var _ := db.Set("accounts", email, codec.encode(JObj(record)), 0, codec);
    reply := Saved(prog);
  }

  /** The copy of the stored progress that the POST request edits. */
  method StoredProgress(acct: Levels.Account) returns (prog: map<string, Pair>)
    ensures prog == Stored(acct)
  {
    prog := map[];
    var pv := ProgressMember(acct);
    if pv.Some? && pv.value.JObj? {
      prog := CopyPairs(pv.value.fields);
    } else if pv.Some? && pv.value.JArr? && |pv.value.items| >= 2 {
      prog := prog["cryptic" := Pair(pv.value.items[0], pv.value.items[1])];
    }
  }

  /** The `switch action` of the POST request. */
  method EditProgress(prog0: map<string, Pair>, acct: Levels.Account, p: map<string, Json>, action: string)
    returns (r: Result<map<string, Pair>>)
    requires action == StrOr(p, "action")
    ensures r == Edited(prog0, acct, p)
  {
    var prog := prog0;
    var typ := StrOr(p, "type");
    if typ == "" {
      typ := "cryptic";
    }
    if action == "inc" {
      var curr := CurrentOf(acct, typ);
      var levelID := Levels.LevelID(typ, curr);
      var progLevel: string;
      var progCheckpoint: real;
      if typ in prog {
        progLevel := "";
        progCheckpoint := 0.0;
        if prog[typ].level.JStr? {
          progLevel := prog[typ].level.s;
        }
        if prog[typ].checkpoint.JNum? {
          progCheckpoint := prog[typ].checkpoint.n;
        }
      } else {
        progLevel := levelID;
        progCheckpoint := 0.0;
      }
      if progLevel != levelID {
        progLevel := levelID;
        progCheckpoint := 0.0;
      }
      progCheckpoint := progCheckpoint + 1.0;
      if progCheckpoint > 9.0 {
        progCheckpoint := 9.0;
      }
      prog := prog[typ := Pair(JStr(progLevel), JNum(progCheckpoint))];
    } else if action == "set" {
      if "progress" in p && p["progress"].JArr? && |p["progress"].items| >= 2 {
        var arr := p["progress"].items;
        if !arr[0].JStr? || !arr[1].JNum? {
          return Err("bad progress");
        }
        var num := arr[1].n;
        if num < 0.0 {
          num := 0.0;
        }
        if num > 9.0 {
          num := 9.0;
        }
        prog := prog[typ := Pair(arr[0], JNum(num))];
      } else {
        return Err("bad progress");
      }
    } else {
      return Err("unknown action");
    }
    r := Ok(prog);
  }

  /** `AdminUpdateUserProgressHandler`: admins only; GET reports, POST edits. */
  function ProgressPlan(t: Tables, admins: set<string>, session: string, requester: Option<string>, verb: string,
                        email: string, payload: Option<map<string, Json>>, codec: Codec): (Reply, Option<(string, Json)>) {
    if !Authorised(admins, session, requester) then (HttpError(401, "unauthorized"), None)
    else if verb == "GET" then (ShowPlan(t, email, codec), None)
    else if verb == "POST" then SavePlan(t, payload, codec)
    else (HttpError(405, "method not allowed"), None)
  }

  method UpdateProgress(db: Database, admins: Admins.Admins?, session: string, requester: Option<string>, verb: string,
                        email: string, payload: Option<map<string, Json>>, codec: Codec) returns (reply: Reply)
    modifies db
    ensures var p := ProgressPlan(old(db.tables), Admins.MembersOf(admins), session, requester, verb, email, payload, codec);
      reply == p.0 && db.tables == Written(old(db.tables), p.1, codec)
  {
    if session == "" || requester.None? || requester.value == "" || admins == null || !Admins.IsAdmin(admins, requester.value) {
      Admins.IsAdminListed(admins, if requester.Some? then requester.value else "");
      return HttpError(401, "unauthorized");
    }
    Admins.IsAdminListed(admins, requester.value);
    if verb == "GET" {
      reply := ShowProgress(db, email, codec);
    } else if verb == "POST" {
      reply := SaveProgress(db, payload, codec);
    } else {
      reply := HttpError(405, "method not allowed");
    }
  }

  // ---------------------------------------------------------------- progress properties

  /** A saved progress is what the next GET shows: every saved entry, plus a default
      for a type it lacks. */
  lemma SaveThenShow(t: Tables, payload: Option<map<string, Json>>, codec: Codec)
    requires Lawful(codec)
    requires SavePlan(t, payload, codec).0.Saved?
    ensures var p := SavePlan(t, payload, codec);
      var shown := ShowPlan(Written(t, p.1, codec), p.1.value.0, codec);
      shown.Progress? && shown.progress.Keys == p.0.progress.Keys + {"cryptic", "ctf"}
      && forall k :: k in p.0.progress ==> shown.progress[k] == p.0.progress[k]
  {
    var p := SavePlan(t, payload, codec);
    var email := p.1.value.0;
    var prog := p.0.progress;
    var f := p.1.value.1.fields;
    assert f["progress"] == ProgressJson(prog);
    var after := Written(t, p.1, codec);
    assert after.users[email] == codec.encode(JObj(f));
    Levels.StoredRecord(after, email, f, codec);
    ShownSaved(f, prog);
  }

  /** An account whose `progress` member is a written progress map shows that map. */
  lemma ShownSaved(f: map<string, Json>, prog: map<string, Pair>)
    requires "progress" in f && f["progress"] == ProgressJson(prog)
    ensures var shown := Shown(Levels.Record(f));
      shown.Keys == prog.Keys + {"cryptic", "ctf"} && forall k :: k in prog ==> shown[k] == prog[k]
  {
    assert ProgressMember(Levels.Record(f)) == Some(ProgressJson(prog));
    PairsRoundTrip(prog);
  }

  /** Nothing but `inc` and `set` writes. */
  lemma UnknownActionWritesNothing(t: Tables, payload: Option<map<string, Json>>, codec: Codec)
    requires payload.Some? && StrOr(payload.value, "action") !in {"inc", "set"}
    ensures Written(t, SavePlan(t, payload, codec).1, codec) == t
  {
  }

  // ---------------------------------------------------------------- user list

  /** One line of the admin user list. */
  datatype Row = Row(email: string, name: string, cryptic: int, ctf: int)

  /** The users table's records that decode as objects (`null` as the empty nil map). */
  function UserObjects(users: map<string, string>, codec: Codec): (r: map<string, map<string, Json>>)
    ensures r.Keys <= users.Keys
    ensures forall e :: e in r ==> DecodeObject(codec.decode(users[e])) == Some(r[e])
  {
    map e | e in users && DecodeObject(codec.decode(users[e])).Some? :: DecodeObject(codec.decode(users[e])).value
  }

  /** `users` after one `range` over `rows` that skips known emails and unparsable records. */
  function Merged(users: map<string, map<string, Json>>, rows: map<string, string>, codec: Codec): map<string, map<string, Json>> {
    users + map e | e in rows && e !in users && DecodeObject(codec.decode(rows[e])).Some? :: DecodeObject(codec.decode(rows[e])).value
  }

  /** Scanning the users table again, as the `registration` and `leaderboard` passes do,
      adds nothing: all three namespaces are the same table. */
  lemma MergedAgain(rows: map<string, string>, codec: Codec)
    ensures Merged(UserObjects(rows, codec), rows, codec) == UserObjects(rows, codec)
  {
  }

  /** One `for email, raw := range rows` pass of the user list. */
  method AddParsed(users0: map<string, map<string, Json>>, rows: map<string, string>, codec: Codec)
    returns (users: map<string, map<string, Json>>)
    ensures users == Merged(users0, rows, codec)
  {
    users := users0;
    var rest := rows.Keys;
    while rest != {}
      invariant rest <= rows.Keys
      invariant forall e :: e in users <==> e in users0 || (e in rows && e !in rest && Parsed(rows, e, codec).Some?)
      invariant forall e :: e in users ==> users[e] == if e in users0 then users0[e] else Parsed(rows, e, codec).value
      decreases rest
    {
      var e :| e in rest;
      if e !in users {
        var obj := DecodeObject(codec.decode(rows[e]));
        if obj.Some? {
          users := users[e := obj.value];
        }
      }
      rest := rest - {e};
    }
    assert users.Keys == Merged(users0, rows, codec).Keys;
  }

  function Parsed(rows: map<string, string>, e: string, codec: Codec): Option<map<string, Json>>
    requires e in rows
  {
    DecodeObject(codec.decode(rows[e]))
  }

  /** The number `strconv.Atoi` reads after the first `-` of a level ID, if any. */
  function IdNumber(s: string): Option<int> {
    var parts := SplitN(s, '-', 2);
    if |parts| == 2 then ParseInt(parts[1]) else None
  }

  /** A built level ID gives its number back. */
  lemma IdNumberOfLevelID(typ: string, n: int)
    requires '-' !in typ && InInt64(n)
    ensures IdNumber(Levels.LevelID(typ, n)) == Some(n)
  {
    SplitNStep(typ, '-', Itoa(n), 2);
    ParseItoa(n);
  }

  /** The level a progress entry names, which overrides the `levels` value in the list. */
  function ProgressLevel(obj: map<string, Json>, typ: string): Option<int> {
    if "progress" in obj && obj["progress"].JObj? && typ in obj["progress"].fields then
      match obj["progress"].fields[typ]
      case JArr(p) => if |p| > 0 && p[0].JStr? then IdNumber(p[0].s) else None
      case _ => None
    else None
  }

  /** The level shown for one type: from the progress entry when it parses, else from
      `levels` (0 when absent). */
  function LevelOf(obj: map<string, Json>, typ: string): (n: int)
    ensures ProgressLevel(obj, typ).Some? ==> n == ProgressLevel(obj, typ).value
    ensures ProgressLevel(obj, typ).None? ==> n == Levels.Current(Levels.Record(obj), typ)
  {
    match ProgressLevel(obj, typ)
    case Some(n) => n
    case None => Levels.Current(Levels.Record(obj), typ)
  }

  function RowOf(email: string, obj: map<string, Json>): Row {
    Row(email, StrOr(obj, "name"), LevelOf(obj, "cryptic"), LevelOf(obj, "ctf"))
  }

  /** `rows` lists every user once, each as RowOf its record, in some order. */
  predicate ListsExactly(rows: seq<Row>, users: map<string, map<string, Json>>) {
    EmailsOf(rows) == users.Keys
    && (forall i :: 0 <= i < |rows| ==> rows[i].email in users && rows[i] == RowOf(rows[i].email, users[rows[i].email]))
    && (forall i, j :: 0 <= i < j < |rows| ==> rows[i].email != rows[j].email)
  }

  /** The emails a list shows. */
  function EmailsOf(rows: seq<Row>): (r: set<string>)
    ensures forall i :: 0 <= i < |rows| ==> rows[i].email in r
  {
    if |rows| == 0 then {} else EmailsOf(rows[..|rows| - 1]) + {rows[|rows| - 1].email}
  }

  lemma EmailsSnoc(rows: seq<Row>, r: Row)
    ensures EmailsOf(rows + [r]) == EmailsOf(rows) + {r.email}
  {
    assert (rows + [r])[..|rows|] == rows;
  }

  /** Every email of a list belongs to one of its rows. */
  lemma {:induction false} EmailsListed(rows: seq<Row>, e: string) returns (i: nat)
    requires e in EmailsOf(rows)
    ensures i < |rows| && rows[i].email == e
  {
    if rows[|rows| - 1].email == e {
      i := |rows| - 1;
    } else {
      i := EmailsListed(rows[..|rows| - 1], e);
    }
  }

  /** The `for email, obj := range users` loop that builds the list. */
  method RowsOf(users: map<string, map<string, Json>>) returns (out: seq<Row>)
    ensures ListsExactly(out, users)
  {
    out := [];
    var rest := users.Keys;
    while rest != {}
      invariant rest <= users.Keys
      invariant EmailsOf(out) == users.Keys - rest
      invariant forall i :: 0 <= i < |out| ==> out[i].email in users && out[i] == RowOf(out[i].email, users[out[i].email])
      invariant forall i, j :: 0 <= i < j < |out| ==> out[i].email != out[j].email
      decreases rest
    {
      var e :| e in rest;
      EmailsSnoc(out, RowOf(e, users[e]));
      out := out + [RowOf(e, users[e])];
      rest := rest - {e};
    }
  }

  /** `AdminListUsersHandler`: admins only; every record of the users table that
      decodes as an object is listed once. */
  method ListUsers(db: Database, admins: Admins.Admins?, session: string, requester: Option<string>, codec: Codec)
    returns (reply: Reply)
    ensures !Authorised(Admins.MembersOf(admins), session, requester) ==> reply == HttpError(401, "unauthorized")
    ensures Authorised(Admins.MembersOf(admins), session, requester) ==>
      reply.Listing? && ListsExactly(reply.rows, UserObjects(db.tables.users, codec))
  {
    if session == "" || requester.None? || requester.value == "" || admins == null || !Admins.IsAdmin(admins, requester.value) {
      Admins.IsAdminListed(admins, if requester.Some? then requester.value else "");
      return HttpError(401, "unauthorized");
    }
    Admins.IsAdminListed(admins, requester.value);
    var users: map<string, map<string, Json>> := map[];
    var accs := db.GetAll("accounts", codec);
    if accs.Some? {
      users := AddParsed(users, accs.value, codec);
    }
    assert users == UserObjects(db.tables.users, codec);
    var regs := db.GetAll("registration", codec);
    if regs.Some? {
      MergedAgain(db.tables.users, codec);
      users := AddParsed(users, regs.value, codec);
    }
    var lbs := db.GetAll("leaderboard", codec);
    if lbs.Some? {
      MergedAgain(db.tables.users, codec);
      users := AddParsed(users, lbs.value, codec);
    }
    var rows := RowsOf(users);
    reply := Listing(rows);
  }

  /** After an `inc`, the user list shows the player on their current level for that
      type, whatever the progress entry named before. */
  lemma ListedAfterInc(t: Tables, payload: Option<map<string, Json>>, codec: Codec)
    requires Lawful(codec)
    requires SavePlan(t, payload, codec).0.Saved?
    requires StrOr(payload.value, "action") == "inc" && TypeOr(payload.value) in {"cryptic", "ctf"}
    requires InInt64(Levels.Current(Levels.StoredAccount(t, StrOr(payload.value, "email"), codec), TypeOr(payload.value)))
    ensures var email := StrOr(payload.value, "email");
      var u := UserObjects(Written(t, SavePlan(t, payload, codec).1, codec).users, codec);
      email in u && LevelOf(u[email], TypeOr(payload.value)) == Levels.Current(Levels.StoredAccount(t, email, codec), TypeOr(payload.value))
  {
    var p := SavePlan(t, payload, codec);
    var email := StrOr(payload.value, "email");
    var typ := TypeOr(payload.value);
    var a := Levels.StoredAccount(t, email, codec);
    var f := p.1.value.1.fields;
    StoredObject(t.users, email, f, codec);
    IncListed(Stored(a), a, typ, f, p.0.progress);
  }

  /** A record written as an object lists as that object. */
  lemma StoredObject(users: map<string, string>, email: string, f: map<string, Json>, codec: Codec)
    requires Lawful(codec)
    ensures var u := UserObjects(users[email := codec.encode(JObj(f))], codec);
      email in u && u[email] == f
  {
    assert codec.decode(codec.encode(JObj(f))) == Some(JObj(f));
  }

  /** The entry `inc` writes parses back, in the list, as the current level. */
  lemma IncListed(prog0: map<string, Pair>, a: Levels.Account, typ: string, f: map<string, Json>, prog: map<string, Pair>)
    requires typ in {"cryptic", "ctf"} && InInt64(Levels.Current(a, typ))
    requires typ in prog && prog[typ] == Inc(prog0, a, typ)
    requires "progress" in f && f["progress"] == ProgressJson(prog)
    ensures LevelOf(f, typ) == Levels.Current(a, typ)
  {
    var n := Levels.Current(a, typ);
    var id := Levels.LevelID(typ, n);
    assert prog[typ].level == JStr(id);
    assert f["progress"].fields[typ] == JArr([JStr(id), prog[typ].checkpoint]);
    assert ProgressLevel(f, typ) == IdNumber(id);
    TypesUndashed(typ);
    IdNumberOfLevelID(typ, n);
  }

  lemma TypesUndashed(typ: string)
    requires typ in {"cryptic", "ctf"}
    ensures '-' !in typ
  {
    if typ == "ctf" {
      assert typ == ['c', 't', 'f'];
    } else {
      assert typ == ['c', 'r', 'y', 'p', 't', 'i', 'c'];
    }
  }

  // ---------------------------------------------------------------- user actions

  /** The account the action handler edits: a missing or empty record is the default. */
  function ActionAccount(raw: Option<string>, codec: Codec): Levels.Account {
    if raw.None? || raw.value == "" then Levels.Fresh else Levels.AccountOf(raw, codec)
  }

  /** `reset_<typ>`: the level of that type goes back to 0 (a `levels` member that is
      not an object is replaced by the defaults) and its progress entry is dropped.
      A nil map panics on the first write (None). */
  function Reset(a: Levels.Account, typ: string): (r: Option<map<string, Json>>)
    ensures r.None? <==> a.NilMap?
    ensures r.Some? ==> r.value - {"levels", "progress"} == Levels.Fields(a) - {"levels", "progress"}
    ensures r.Some? && ProgressMember(a).Some? && ProgressMember(a).value.JObj? ==>
      "progress" in r.value && r.value["progress"] == JObj(ProgressMember(a).value.fields - {typ})
    ensures r.Some? && ProgressMember(a).Some? && !ProgressMember(a).value.JObj? ==>
      "progress" in r.value && r.value["progress"] == ProgressMember(a).value
    ensures r.Some? && ProgressMember(a).None? ==> "progress" !in r.value
  {
    if a.NilMap? then None
    else
      var f := Levels.Fields(a);
      var lv := if a.Record? && "levels" in f && f["levels"].JObj? then JObj(f["levels"].fields[typ := JNum(0.0)])
                else Levels.FreshLevels;
      var f1 := f["levels" := lv];
      Some(if "progress" in f1 && f1["progress"].JObj? then f1["progress" := JObj(f1["progress"].fields - {typ})] else f1)
  }

  /** The action type a reset names. */
  function ResetType(action: string): Option<string> {
    if action == "reset_cryptic" then Some("cryptic")
    else if action == "reset_ctf" then Some("ctf")
    else None
  }

  /** `AdminUserActionHandler`: its answer and the tables after it. */
  function ActionPlan(t: Tables, admins: set<string>, session: string, requester: Option<string>, verb: string,
                      payload: Option<map<string, string>>, codec: Codec): (r: (Reply, Tables))
    ensures r.0 == HttpError(401, "unauthorized") <==> !Authorised(admins, session, requester)
    ensures r.1 != t ==> r.0 == Success
  {
    if !Authorised(admins, session, requester) then (HttpError(401, "unauthorized"), t)
    else if verb != "POST" then (HttpError(405, "method not allowed"), t)
    else if payload.None? then (HttpError(400, "bad payload"), t)
    else
      var email := Param(payload.value, "email");
      var action := Param(payload.value, "action");
      if email == "" || action == "" then (HttpError(400, "missing fields"), t)
      else
        var a := ActionAccount(GetT(t, "accounts", email, codec), codec);
        match ResetType(action)
        case Some(typ) =>
          (match Reset(a, typ)
           case None => (Aborted, t)
           case Some(f) => (Success, SetT(t, "accounts", email, codec.encode(JObj(f)), 0, codec).0))
        case None =>
          if action == "delete" then
            var t1 := DeleteT(t, "accounts", email, codec).0;
            (Success, DeleteT(t1, "leaderboard", email, codec).0)
          else (HttpError(400, "unknown action"), t)
  }

  method UserAction(db: Database, admins: Admins.Admins?, session: string, requester: Option<string>, verb: string,
                    payload: Option<map<string, string>>, codec: Codec) returns (reply: Reply)
    modifies db
    ensures var p := ActionPlan(old(db.tables), Admins.MembersOf(admins), session, requester, verb, payload, codec);
      reply == p.0 && db.tables == p.1
  {
    if session == "" || requester.None? || requester.value == "" || admins == null || !Admins.IsAdmin(admins, requester.value) {
      Admins.IsAdminListed(admins, if requester.Some? then requester.value else "");
      return HttpError(401, "unauthorized");
    }
    Admins.IsAdminListed(admins, requester.value);
    if verb != "POST" {
      return HttpError(405, "method not allowed");
    }
    if payload.None? {
      return HttpError(400, "bad payload");
    }
    var email := Param(payload.value, "email");
    var action := Param(payload.value, "action");
    if email == "" || action == "" {
      return HttpError(400, "missing fields");
    }
    var acctRaw := db.Get("accounts", email, codec);
    var acct := ActionAccount(acctRaw, codec);
    if action == "reset_cryptic" || action == "reset_ctf" {
      var typ := if action == "reset_cryptic" then "cryptic" else "ctf";
      var f := Reset(acct, typ);
      if f.None? {
        return Aborted;
      }
      var _ := db.Set("accounts", email, codec.encode(JObj(f.value)), 0, codec);
      reply := Success;
    } else if action == "delete" {
      var _ := db.Delete("accounts", email, codec);
      var _ := db.Delete("leaderboard", email, codec);
      reply := Success;
    } else {
      reply := HttpError(400, "unknown action");
    }
  }

  /** `delete` removes the user's record and nothing else; the leaderboard delete that
      follows finds no record and changes nothing. */
  lemma DeleteRemovesUser(t: Tables, admins: set<string>, session: string, requester: Option<string>,
                          payload: map<string, string>, codec: Codec)
    requires Authorised(admins, session, requester)
    requires Param(payload, "email") != "" && Param(payload, "action") == "delete"
    ensures ActionPlan(t, admins, session, requester, "POST", Some(payload), codec)
      == (Success, t.(users := t.users - {Param(payload, "email")}))
  {
    var email := Param(payload, "email");
    assert ResetType("delete").None?;
    var t1 := DeleteT(t, "accounts", email, codec).0;
    assert t1 == t.(users := t.users - {email});
    assert "leaderboard"[..9] != "messages/" by { assert "leaderboard"[0] != "messages/"[0]; }
    assert DeleteT(t1, "leaderboard", email, codec).0 == t1;
  }

  /** A successful reset stores the reset record. */
  lemma ResetStored(t: Tables, admins: set<string>, session: string, requester: Option<string>,
                    payload: map<string, string>, codec: Codec)
    requires Lawful(codec)
    requires ActionPlan(t, admins, session, requester, "POST", Some(payload), codec).0 == Success
    requires ResetType(Param(payload, "action")).Some?
    ensures var email := Param(payload, "email");
      var before := ActionAccount(GetT(t, "accounts", email, codec), codec);
      var f := Reset(before, ResetType(Param(payload, "action")).value);
      f.Some? && Levels.StoredAccount(ActionPlan(t, admins, session, requester, "POST", Some(payload), codec).1, email, codec)
        == Levels.Record(f.value)
  {
    var email := Param(payload, "email");
    var before := ActionAccount(GetT(t, "accounts", email, codec), codec);
    var f := Reset(before, ResetType(Param(payload, "action")).value).value;
    var t1 := ActionPlan(t, admins, session, requester, "POST", Some(payload), codec).1;
    assert t1.users[email] == codec.encode(JObj(f));
    Levels.StoredRecord(t1, email, f, codec);
  }

  /** A reset zeroes that type's level and, when the record had a `levels` object,
      keeps every other type's level. */
  lemma ResetLevels(a: Levels.Account, typ: string, other: string)
    requires !a.NilMap? && typ in {"cryptic", "ctf"}
    ensures Levels.Current(Levels.Record(Reset(a, typ).value), typ) == 0
    ensures a.Record? && "levels" in a.m && a.m["levels"].JObj? && other != typ ==>
      Levels.Current(Levels.Record(Reset(a, typ).value), other) == Levels.Current(a, other)
  {
    var f := Reset(a, typ).value;
    assert f["levels"].JObj?;
    var l := Levels.NumEntries(f["levels"].fields);
    assert typ in l && l[typ] == 0.0;
    if a.Record? && "levels" in a.m && a.m["levels"].JObj? && other != typ {
      var l0 := Levels.NumEntries(a.m["levels"].fields);
      assert other in l <==> other in l0;
      assert other in l ==> l[other] == l0[other];
    }
  }

  /** `Itoa(0)`. */
  lemma ZeroDigits()
    ensures Itoa(0) == "0"
  {
    assert NatDigits(0) == [DigitChar(0)];
  }

  /** After a reset, the GET request shows that type at level 0, checkpoint 0, unless
      the progress is a legacy array, which the reset leaves as it was. */
  lemma ResetShowsStart(a: Levels.Account, typ: string)
    requires !a.NilMap? && typ in {"cryptic", "ctf"}
    requires ProgressMember(a).None? || ProgressMember(a).value.JObj?
    ensures Shown(Levels.Record(Reset(a, typ).value))[typ] == Pair(JStr(Levels.LevelID(typ, 0)), JNum(0.0))
  {
    var f := Reset(a, typ).value;
    var b := Levels.Record(f);
    ResetLevels(a, typ, typ);
    ZeroDigits();
    if typ == "cryptic" {
      assert CrypticStart(b) == Pair(JStr(Levels.LevelID("cryptic", 0)), JNum(0.0));
    } else {
      assert Levels.LevelID("ctf", 0) == "ctf" + "-" + "0";
      assert "ctf" + "-" + "0" == "ctf-0";
      assert CtfStart == Pair(JStr(Levels.LevelID("ctf", 0)), JNum(0.0));
    }
    if ProgressMember(b).Some? {
      assert f["progress"].JObj? && typ !in f["progress"].fields;
      var m := Pairs(f["progress"].fields);
      assert typ !in m;
      var m1 := if "cryptic" in m then m else m["cryptic" := CrypticStart(b)];
      assert Shown(b) == if "ctf" in m1 then m1 else m1["ctf" := CtfStart];
    }
  }

  /** The reset action end to end: the stored record has that type at level 0, the other
      type's level kept, only that type's progress entry dropped (a `progress` member
      that is not an object is kept as it was), and the GET request shows that type
      from its start. */
  lemma ResetOnlyThatType(t: Tables, admins: set<string>, session: string, requester: Option<string>,
                          payload: map<string, string>, codec: Codec, other: string)
    requires Lawful(codec)
    requires ActionPlan(t, admins, session, requester, "POST", Some(payload), codec).0 == Success
    requires ResetType(Param(payload, "action")).Some? && other != ResetType(Param(payload, "action")).value
    ensures var email := Param(payload, "email");
      var typ := ResetType(Param(payload, "action")).value;
      var before := ActionAccount(GetT(t, "accounts", email, codec), codec);
      var after := Levels.StoredAccount(ActionPlan(t, admins, session, requester, "POST", Some(payload), codec).1, email, codec);
      Levels.Current(after, typ) == 0
      && (before.Record? && "levels" in before.m && before.m["levels"].JObj? ==> Levels.Current(after, other) == Levels.Current(before, other))
      && (ProgressMember(before).None? || ProgressMember(before).value.JObj? ==>
            Shown(after)[typ] == Pair(JStr(Levels.LevelID(typ, 0)), JNum(0.0)))
      && (ProgressMember(before).Some? && ProgressMember(before).value.JObj? ==>
            ProgressMember(after).Some? && ProgressMember(after).value.JObj?
            && typ !in ProgressMember(after).value.fields
            && (other in ProgressMember(after).value.fields <==> other in ProgressMember(before).value.fields)
            && (other in ProgressMember(before).value.fields ==>
                  ProgressMember(after).value.fields[other] == ProgressMember(before).value.fields[other]))
      && (ProgressMember(before).Some? && !ProgressMember(before).value.JObj? ==>
            ProgressMember(after) == ProgressMember(before))
      && (ProgressMember(before).None? ==> ProgressMember(after).None?)
  {
    var email := Param(payload, "email");
    var typ := ResetType(Param(payload, "action")).value;
    var before := ActionAccount(GetT(t, "accounts", email, codec), codec);
    ResetStored(t, admins, session, requester, payload, codec);
    ResetLevels(before, typ, other);
    if ProgressMember(before).None? || ProgressMember(before).value.JObj? {
      ResetShowsStart(before, typ);
    }
  }
}
