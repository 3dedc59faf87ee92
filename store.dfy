/** The web application's key/value store (db/db.go): one SQLite database whose
    tables are addressed by a namespace string. Each table is a map (or, for the
    append-only `messages` and `logs` tables, a sequence of rows with an
    autoincrement id); the SQL engine itself is not modelled. */
module Store {
  import opened Basics
  import opened Text
  import opened Json

  datatype MessageRow = MessageRow(id: int, data: string, createdAt: int, read: int)
  datatype LogRow = LogRow(id: int, namespace: string, key: string, event: string, data: string, createdAt: int)

  datatype Tables = Tables(
    users: map<string, string>,
    pendingSignups: map<string, string>,
    emails: map<string, int>,
    levels: map<string, string>,
    sessions: map<string, string>,
    announcements: map<string, string>,
    attemptLogs: map<string, string>,
    hints: map<(string, string), string>,
    messages: seq<MessageRow>,
    logs: seq<LogRow>,
    lastMessageId: int,
    lastLogId: int)

  const Empty: Tables := Tables(map[], map[], map[], map[], map[], map[], map[], map[], [], [], 0, 0)

  datatype Status = Done | Failed(reason: string)

  // ---------------------------------------------------------------- routing

  /** The namespaces that name a table of their own; every other namespace
      (`accounts`, `registration`, `users`, `settings`, anything) is the users table. */
  const Named: set<string> := {"pending_signup", "emails", "leaderboard", "levels", "sessions",
                               "announcements", "attempt_logs", "hints", "logs", "messages"}

  /** Namespaces `Get` reads from the users table: besides the aliases, `leaderboard`,
      `logs` and `messages` fall through to it. */
  predicate ReadsUsers(ns: string) {
    ns !in Named || ns in {"leaderboard", "logs", "messages"}
  }

  // ---------------------------------------------------------------- field splitting

  /** A `hints` key is `<level>/<hint>`; a key without `/` is refused. */
  function HintKey(key: string): (r: Option<(string, string)>)
    ensures r.None? <==> '/' !in key
    ensures r.Some? ==> '/' !in r.value.0 && key == r.value.0 + "/" + r.value.1
  {
    var parts := SplitN(key, '/', 2);
    if |parts| != 2 then None
    else
      JoinSplitTwo(key, '/');
      Some((parts[0], parts[1]))
  }

  lemma JoinSplitTwo(s: string, c: char)
    requires |SplitN(s, c, 2)| == 2
    ensures s == SplitN(s, c, 2)[0] + [c] + SplitN(s, c, 2)[1]
  {
    var i := IndexOf(s, c);
    assert s == s[..i] + [c] + s[i + 1..];
  }

  /** SplitN with missing pieces read as "", as the logs and messages cases do. */
  function Pieces(s: string, n: nat): (r: seq<string>)
    requires n >= 1
    ensures |r| == n
    ensures forall k :: 0 <= k < |SplitN(s, '|', n)| ==> r[k] == SplitN(s, '|', n)[k]
    ensures forall k :: |SplitN(s, '|', n)| <= k < n ==> r[k] == ""
  {
    var parts := SplitN(s, '|', n);
    parts + seq(n - |parts|, _ => "")
  }

  /** A `logs` value `namespace|event|data`: split at the first two `|`. */
  function LogFields(value: string): (f: (string, string, string)) {
    var p := Pieces(value, 3);
    (p[0], p[1], p[2])
  }

  /** The JSON object a pipe-separated `messages` value is stored as. */
  function MessageObject(value: string): (m: map<string, Json>)
    ensures m.Keys == {"from", "to", "level_id", "type", "content"}
  {
    var p := Pieces(value, 5);
    map["from" := JStr(p[0]), "to" := JStr(p[1]), "level_id" := JStr(p[2]),
        "type" := JStr(p[3]), "content" := JStr(p[4])]
  }

  /** A `messages` value whose trimmed form opens a JSON object or array is kept verbatim. */
  predicate Verbatim(value: string) {
    var v := TrimSpace(value);
    |v| > 0 && (v[0] == '{' || v[0] == '[')
  }

  function MessageData(value: string, codec: Codec): string {
    if Verbatim(value) then TrimSpace(value) else codec.encode(JObj(MessageObject(value)))
  }

  /** Splitting the value `namespace|event|data` gives the three pieces back when the
      first two contain no `|`; the data may. */
  lemma LogRoundTrip(ns: string, event: string, data: string)
    requires '|' !in ns && '|' !in event
    ensures LogFields(ns + "|" + event + "|" + data) == (ns, event, data)
  {
    var parts := [ns, event, data];
    var v := ns + "|" + event + "|" + data;
    assert Join(parts, '|') == v by {
      assert parts[1..] == [event, data];
      assert [event, data][1..] == [data];
      assert Join([event, data], '|') == event + "|" + data;
    }
    SplitNJoin(parts, '|');
    var p := Pieces(v, 3);
    assert SplitN(v, '|', 3) == parts;
    assert p[0] == ns && p[1] == event && p[2] == data;
  }

  /** A value with fewer than two `|` leaves the missing fields empty. */
  lemma LogShort(s: string)
    requires '|' !in s
    ensures LogFields(s) == (s, "", "")
  {
  }

  /** The value the message handler builds, `from|to|level|type|content`, is stored as
      the object with those five fields whenever the first four contain no `|` and the
      sender does not open with `{` or `[`; the content may contain `|`. */
  lemma MessageRoundTrip(parts: seq<string>)
    requires |parts| == 5
    requires forall k :: 0 <= k < 4 ==> '|' !in parts[k]
    ensures MessageObject(Join(parts, '|')) ==
      map["from" := JStr(parts[0]), "to" := JStr(parts[1]), "level_id" := JStr(parts[2]),
          "type" := JStr(parts[3]), "content" := JStr(parts[4])]
  {
    SplitNJoin(parts, '|');
  }

  // ---------------------------------------------------------------- leaderboard merge

  /** The user record after merging a leaderboard value `lb` into it: `name` only when
      it is a non-empty string, `points` and `time` whenever present; nothing else moves. */
  function Merge(user: map<string, Json>, lb: map<string, Json>): (r: map<string, Json>)
    ensures forall k :: k !in {"name", "points", "time"} ==> (k in r <==> k in user) && (k in user ==> r[k] == user[k])
    ensures "points" in lb ==> "points" in r && r["points"] == lb["points"]
    ensures "points" !in lb ==> ("points" in r <==> "points" in user) && ("points" in user ==> r["points"] == user["points"])
    ensures "time" in lb ==> "time" in r && r["time"] == lb["time"]
    ensures "time" !in lb ==> ("time" in r <==> "time" in user) && ("time" in user ==> r["time"] == user["time"])
    ensures (match StrField(lb, "name") case Some(n) => n != "" case None => false) ==>
      "name" in r && r["name"] == lb["name"]
    ensures !(match StrField(lb, "name") case Some(n) => n != "" case None => false) ==>
      ("name" in r <==> "name" in user) && ("name" in user ==> r["name"] == user["name"])
  {
    var u1 := match StrField(lb, "name")
      case Some(n) => if n != "" then user["name" := JStr(n)] else user
      case None => user;
    var u2 := if "points" in lb then u1["points" := lb["points"]] else u1;
    if "time" in lb then u2["time" := lb["time"]] else u2
  }

  /** Whether the merge writes any member (writing into a nil map panics). */
  predicate MergeWrites(lb: map<string, Json>) {
    (match StrField(lb, "name") case Some(n) => n != "" case None => false)
    || "points" in lb || "time" in lb
  }

  /** Setting a leaderboard value: the text must decode to an object (or null); the
      user record is the existing one (which may fail to decode, leaving a nil map)
      or a fresh `{"email": key}`. */
  function SetLeaderboard(t: Tables, key: string, value: string, codec: Codec): (r: (Tables, Status)) {
    match DecodeObject(codec.decode(value))
    case None => (t, Failed("json: cannot unmarshal leaderboard value"))
    case Some(lb) =>
      var user := if key in t.users then GoMap(codec.decode(t.users[key]))
                  else Some(map["email" := JStr(key)]);
      if user.None? && MergeWrites(lb) then (t, Failed("assignment to entry in nil map"))
      else
        var text := if user.None? then codec.encode(JNull) else codec.encode(JObj(Merge(user.value, lb)));
        (t.(users := t.users[key := text]), Done)
  }

  // ---------------------------------------------------------------- Set, Get, Delete

  function SetT(t: Tables, ns: string, key: string, value: string, now: int, codec: Codec): (r: (Tables, Status))
  {
    if ns == "pending_signup" then (t.(pendingSignups := t.pendingSignups[key := value]), Done)
    else if ns == "emails" then (t.(emails := t.emails[key := now]), Done)
    else if ns == "leaderboard" then SetLeaderboard(t, key, value, codec)
    else if ns == "levels" then (t.(levels := t.levels[key := value]), Done)
    else if ns == "sessions" then (t.(sessions := t.sessions[key := value]), Done)
    else if ns == "announcements" then (t.(announcements := t.announcements[key := value]), Done)
    else if ns == "attempt_logs" then (t.(attemptLogs := t.attemptLogs[key := value]), Done)
    else if ns == "hints" then
      match HintKey(key)
      case None => (t, Failed("invalid hints key"))
      case Some(p) => (t.(hints := t.hints[p := value]), Done)
    else if ns == "logs" then
      var f := LogFields(value);
      var id := t.lastLogId + 1;
      (t.(logs := t.logs + [LogRow(id, f.0, key, f.1, f.2, now)], lastLogId := id), Done)
    else if ns == "messages" then
      var id := t.lastMessageId + 1;
      (t.(messages := t.messages + [MessageRow(id, MessageData(value, codec), now, 0)], lastMessageId := id), Done)
    else (t.(users := t.users[key := value]), Done)
  }

  /** Writing the `accounts` namespace replaces the user's record and nothing else. */
  lemma SetAccount(t: Tables, key: string, value: string, now: int, codec: Codec)
    ensures SetT(t, "accounts", key, value, now, codec) == (t.(users := t.users[key := value]), Done)
  {
  }

  /** The hints of one level, as the JSON object `Get("hints", level)` prints. */
  function HintsOf(h: map<(string, string), string>, level: string): (m: map<string, Json>)
    ensures forall id :: id in m <==> (level, id) in h
    ensures forall id :: id in m ==> m[id] == JStr(h[(level, id)])
  {
    map id | id in (set p | p in h && p.0 == level :: p.1) :: JStr(h[(level, id)])
  }

  /** `Get`: None is the "no rows" error. */
  function GetT(t: Tables, ns: string, key: string, codec: Codec): (r: Option<string>)
  {
    if ns == "pending_signup" then Lookup(t.pendingSignups, key)
    else if ns == "emails" then (if key in t.emails then Some(Itoa(t.emails[key])) else None)
    else if ns == "levels" then Lookup(t.levels, key)
    else if ns == "sessions" then Lookup(t.sessions, key)
    else if ns == "announcements" then Lookup(t.announcements, key)
    else if ns == "attempt_logs" then Lookup(t.attemptLogs, key)
    else if ns == "hints" then Some(codec.encode(JObj(HintsOf(t.hints, key))))
    else Lookup(t.users, key)
  }

  function Lookup(m: map<string, string>, key: string): (r: Option<string>)
    ensures r.Some? <==> key in m
    ensures r.Some? ==> r.value == m[key]
  {
    if key in m then Some(m[key]) else None
  }

  /** The message rows `Delete("messages/<email>", type)` matches: a string `from` or
      `to` equal to the email and a string `type` equal to the key. */
  predicate DeletesMessage(row: MessageRow, email: string, typ: string, codec: Codec) {
    match codec.decode(row.data)
    case Some(JObj(m)) =>
      (StrField(m, "from") == Some(email) || StrField(m, "to") == Some(email))
      && StrField(m, "type") == Some(typ)
    case _ => false
  }

  function KeepMessages(rows: seq<MessageRow>, email: string, typ: string, codec: Codec): (r: seq<MessageRow>)
    ensures forall x :: x in r <==> x in rows && !DeletesMessage(x, email, typ, codec)
    ensures |r| <= |rows|
  {
    if |rows| == 0 then []
    else
      var rest := KeepMessages(rows[..|rows| - 1], email, typ, codec);
      var x := rows[|rows| - 1];
      assert forall y :: y in rows <==> y in rows[..|rows| - 1] || y == x;
      if DeletesMessage(x, email, typ, codec) then rest else rest + [x]
  }

  /** SQLite's `json_extract` fails the whole statement on a row that is not JSON. */
  predicate AllParse(rows: seq<MessageRow>, codec: Codec) {
    forall i :: 0 <= i < |rows| ==> codec.decode(rows[i].data).Some?
  }

  function DeleteT(t: Tables, ns: string, key: string, codec: Codec): (r: (Tables, Status))
  {
    if |ns| >= 9 && ns[..9] == "messages/" then
      if !AllParse(t.messages, codec) then (t, Failed("malformed JSON"))
      else (t.(messages := KeepMessages(t.messages, ns[9..], key, codec)), Done)
    else if ns == "pending_signup" then (t.(pendingSignups := t.pendingSignups - {key}), Done)
    else if ns == "emails" then (t.(emails := t.emails - {key}), Done)
    else if ns == "leaderboard" then
      if key !in t.users then (t, Failed("sql: no rows in result set"))
      else
        var user := GoMap(codec.decode(t.users[key]));
        var text := if user.None? then codec.encode(JNull) else codec.encode(JObj(user.value - {"points", "time"}));
        (t.(users := t.users[key := text]), Done)
    else if ns == "levels" then (t.(levels := t.levels - {key}), Done)
    else if ns == "sessions" then (t.(sessions := t.sessions - {key}), Done)
    else if ns == "announcements" then (t.(announcements := t.announcements - {key}), Done)
    else if ns == "attempt_logs" then (t.(attemptLogs := t.attemptLogs - {key}), Done)
    else if ns == "hints" then
      match HintKey(key)
      case None => (t, Failed("invalid hints key"))
      case Some(p) => (t.(hints := t.hints - {p}), Done)
    else (t.(users := t.users - {key}), Done)
  }

  // ---------------------------------------------------------------- GetAll

  /** The object a message row is listed as: its stored object (or `{"content": data}`
      when the data is not an object) with `id`, `created_at` and `read` added.
      Data that decodes to `null` leaves a nil map, and adding to it panics (None). */
  function MessagePayload(row: MessageRow, codec: Codec): (p: Option<map<string, Json>>)
    ensures p.None? <==> codec.decode(row.data) == Some(JNull)
    ensures p.Some? ==> "id" in p.value && p.value["id"] == JNum(row.id as real)
    ensures p.Some? ==> "created_at" in p.value && p.value["created_at"] == JNum(row.createdAt as real)
    ensures p.Some? ==> "read" in p.value && p.value["read"] == JNum(row.read as real)
    ensures p.Some? ==> forall k :: k in p.value ==>
      (k == "id" || k == "created_at" || k == "read"
       || if codec.decode(row.data).Some? && codec.decode(row.data).value.JObj?
          then k in codec.decode(row.data).value.fields && p.value[k] == codec.decode(row.data).value.fields[k]
          else k == "content" && p.value[k] == JStr(row.data))
    ensures codec.decode(row.data).Some? && codec.decode(row.data).value.JObj? ==>
      var m := codec.decode(row.data).value.fields;
      forall k :: k in m && k != "id" && k != "created_at" && k != "read" ==> k in p.value && p.value[k] == m[k]
    ensures !(codec.decode(row.data).Some? && codec.decode(row.data).value.JObj?) && p.Some? ==>
      "content" in p.value && p.value["content"] == JStr(row.data)
  {
    var base := match codec.decode(row.data)
      case Some(JObj(m)) => Some(m)
      case Some(JNull) => None
      case _ => Some(map["content" := JStr(row.data)]);
    if base.None? then None
    else Some(base.value["id" := JNum(row.id as real)]["created_at" := JNum(row.createdAt as real)]
                        ["read" := JNum(row.read as real)])
  }

  function LogObject(row: LogRow): (m: map<string, Json>) {
    map["id" := JNum(row.id as real), "namespace" := JStr(row.namespace), "key" := JStr(row.key),
        "event" := JStr(row.event), "data" := JStr(row.data), "created_at" := JNum(row.createdAt as real)]
  }

  /** The listing of the message rows, keyed by decimal id (None when a row panics). */
  function AllMessages(rows: seq<MessageRow>, codec: Codec): (r: Option<map<string, string>>)
  {
    if |rows| == 0 then Some(map[])
    else
      var x := rows[|rows| - 1];
      match (AllMessages(rows[..|rows| - 1], codec), MessagePayload(x, codec))
      case (Some(m), Some(p)) => Some(m[Itoa(x.id) := codec.encode(JObj(p))])
      case _ => None
  }

  function AllLogs(rows: seq<LogRow>, codec: Codec): (r: map<string, string>)
  {
    if |rows| == 0 then map[]
    else
      var x := rows[|rows| - 1];
      AllLogs(rows[..|rows| - 1], codec)[Itoa(x.id) := codec.encode(JObj(LogObject(x)))]
  }

  /** `GetAll`: every row of the namespace's table keyed by its key; `sessions` and
      unknown namespaces list nothing; None is an error. */
  function GetAllT(t: Tables, ns: string, codec: Codec): (r: Option<map<string, string>>)
  {
    if ns in {"accounts", "registration", "users", "leaderboard"} then Some(t.users)
    else if ns == "pending_signup" then Some(t.pendingSignups)
    else if ns == "emails" then Some(map k | k in t.emails :: Itoa(t.emails[k]))
    else if ns == "levels" then Some(t.levels)
    else if ns == "announcements" then Some(t.announcements)
    else if ns == "attempt_logs" then Some(t.attemptLogs)
    else if ns == "messages" then AllMessages(t.messages, codec)
    else if ns == "logs" then Some(AllLogs(t.logs, codec))
    else if ns == "hints" then Some(AllHints(t.hints))
    else Some(map[])
  }

  /** Every hint under the key `level/hint`, as `GetAll("hints")` lists them. A row
      whose level holds `/` cannot be written by `Set` and is not listed. */
  function AllHints(h: map<(string, string), string>): (m: map<string, string>)
    ensures forall k :: k in m ==> HintKey(k).Some? && HintKey(k).value in h && m[k] == h[HintKey(k).value]
  {
    map k | k in (set p | p in h :: p.0 + "/" + p.1) && HintKey(k).Some? && HintKey(k).value in h
      :: h[HintKey(k).value]
  }

  /** Every stored hint whose level holds no `/` is listed under `level/hint`. */
  lemma AllHintsComplete(h: map<(string, string), string>, level: string, id: string)
    requires (level, id) in h && '/' !in level
    ensures level + "/" + id in AllHints(h) && AllHints(h)[level + "/" + id] == h[(level, id)]
  {
    HintKeyOf(level, id);
  }

  /** A key `level/hint` with no `/` in the level splits back into its two parts. */
  lemma HintKeyOf(level: string, id: string)
    requires '/' !in level
    ensures HintKey(level + "/" + id) == Some((level, id))
  {
    var parts := [level, id];
    SplitNJoin(parts, '/');
    assert Join(parts, '/') == level + "/" + id by { assert parts[1..] == [id]; }
  }

  // ---------------------------------------------------------------- properties

  /** `accounts`, `registration`, `users` and every unknown namespace alias the users
      table: a value set under one is read back under any other. */
  lemma UsersAlias(t: Tables, ns: string, ns': string, key: string, value: string, now: int, codec: Codec)
    requires ns !in Named && ReadsUsers(ns')
    ensures SetT(t, ns, key, value, now, codec).1 == Done
    ensures GetT(SetT(t, ns, key, value, now, codec).0, ns', key, codec) == Some(value)
  {
  }

  /** Each single-key table reads back what was set under its own namespace. */
  lemma SetThenGet(t: Tables, ns: string, key: string, value: string, now: int, codec: Codec)
    requires ns in {"pending_signup", "levels", "sessions", "announcements", "attempt_logs"}
    ensures GetT(SetT(t, ns, key, value, now, codec).0, ns, key, codec) == Some(value)
  {
  }

  /** `emails` ignores the value and records the time of the write. */
  lemma EmailsRecordTime(t: Tables, key: string, value: string, now: int, codec: Codec)
    ensures GetT(SetT(t, "emails", key, value, now, codec).0, "emails", key, codec) == Some(Itoa(now))
  {
  }

  /** A hint set under `level/id` is listed under its level. */
  lemma HintThenGet(t: Tables, level: string, id: string, value: string, now: int, codec: Codec)
    requires '/' !in level
    ensures SetT(t, "hints", level + "/" + id, value, now, codec).1 == Done
    ensures var m := HintsOf(SetT(t, "hints", level + "/" + id, value, now, codec).0.hints, level);
      id in m && m[id] == JStr(value)
  {
    var key := level + "/" + id;
    var parts := [level, id];
    SplitNJoin(parts, '/');
    assert Join(parts, '/') == key by { assert parts[1..] == [id]; }
  }

  /** A hint set under `level/id` is listed by `GetAll("hints")` under that key. */
  lemma HintListed(t: Tables, level: string, id: string, value: string, now: int, codec: Codec)
    requires '/' !in level
    ensures var m := GetAllT(SetT(t, "hints", level + "/" + id, value, now, codec).0, "hints", codec).value;
      level + "/" + id in m && m[level + "/" + id] == value
  {
    var key := level + "/" + id;
    HintKeyOf(level, id);
    var h := SetT(t, "hints", key, value, now, codec).0.hints;
    assert h == t.hints[(level, id) := value];
    assert key in (set p | p in h :: p.0 + "/" + p.1) by {
      assert (level, id) in h;
    }
  }

  /** Every `logs` write appends exactly one row and leaves the earlier rows alone. */
  lemma LogAppends(t: Tables, key: string, value: string, now: int, codec: Codec)
    ensures var t' := SetT(t, "logs", key, value, now, codec).0;
      t'.logs == t.logs + [LogRow(t.lastLogId + 1, LogFields(value).0, key, LogFields(value).1, LogFields(value).2, now)]
      && t'.users == t.users && t'.messages == t.messages
  {
    assert "logs" != "pending_signup" && "logs" != "emails" && "logs" != "leaderboard" && "logs" != "levels"
      && "logs" != "sessions" && "logs" != "announcements" && "logs" != "attempt_logs" && "logs" != "hints" by {
      assert "logs"[0] == 'l' && "logs"[1] == 'o';
    }
  }

  /** A leaderboard write into a record that decodes keeps every other member of the
      record and takes `points` and `time` from the value. */
  lemma LeaderboardKeepsFields(t: Tables, key: string, value: string, codec: Codec, lb: map<string, Json>, user: map<string, Json>)
    requires Lawful(codec)
    requires codec.decode(value) == Some(JObj(lb))
    requires key in t.users && codec.decode(t.users[key]) == Some(JObj(user))
    ensures SetT(t, "leaderboard", key, value, 0, codec).1 == Done
    ensures var t' := SetT(t, "leaderboard", key, value, 0, codec).0;
      key in t'.users && codec.decode(t'.users[key]) == Some(JObj(Merge(user, lb)))
  {
  }

  /** Without a record the merge starts from `{"email": key}`. */
  lemma LeaderboardFreshRecord(t: Tables, key: string, value: string, codec: Codec, lb: map<string, Json>)
    requires codec.decode(value) == Some(JObj(lb))
    requires key !in t.users
    ensures var t' := SetT(t, "leaderboard", key, value, 0, codec).0;
      key in t'.users && t'.users[key] == codec.encode(JObj(Merge(map["email" := JStr(key)], lb)))
  {
  }

  /** Deleting a leaderboard entry removes `points` and `time` and nothing else. */
  lemma LeaderboardDelete(t: Tables, key: string, codec: Codec, user: map<string, Json>)
    requires Lawful(codec)
    requires key in t.users && codec.decode(t.users[key]) == Some(JObj(user))
    ensures DeleteT(t, "leaderboard", key, codec).1 == Done
    ensures var t' := DeleteT(t, "leaderboard", key, codec).0;
      key in t'.users && codec.decode(t'.users[key]) == Some(JObj(user - {"points", "time"}))
  {
    assert "leaderboard"[..9] != "messages/" by { assert "leaderboard"[0] != 'm'; }
    var j := JObj(user - {"points", "time"});
    assert DeleteT(t, "leaderboard", key, codec).0.users[key] == codec.encode(j);
    assert codec.decode(codec.encode(j)) == Some(j);
  }

  /** `Delete("messages/<email>", type)` removes exactly the matching rows. */
  lemma DeleteMessagesExactly(t: Tables, email: string, typ: string, codec: Codec)
    requires AllParse(t.messages, codec)
    ensures var t' := DeleteT(t, "messages/" + email, typ, codec).0;
      forall x :: x in t'.messages <==> x in t.messages && !DeletesMessage(x, email, typ, codec)
  {
    var ns := "messages/" + email;
    assert ns[..9] == "messages/" && ns[9..] == email;
  }

  /** `Set` and `Delete` on `hints` refuse a key without `/`. */
  lemma HintKeyRequired(t: Tables, key: string, value: string, now: int, codec: Codec)
    requires '/' !in key
    ensures SetT(t, "hints", key, value, now, codec) == (t, Failed("invalid hints key"))
    ensures DeleteT(t, "hints", key, codec) == (t, Failed("invalid hints key"))
  {
  }

  /** `ks` is an order in which Go's `range` may visit the map: every key exactly once. */
  ghost predicate Enumerates<V>(data: map<string, V>, ks: seq<string>) {
    (forall i, j :: 0 <= i < j < |ks| ==> ks[i] != ks[j]) && data.Keys == set k | k in ks
  }

  lemma EnumeratedKeys<V>(data: map<string, V>, ks: seq<string>)
    requires Enumerates(data, ks)
    ensures forall k :: k in ks <==> k in data
  {
    forall k ensures k in ks <==> k in data {
      assert k in data.Keys <==> k in (set k | k in ks);
    }
  }

  /** A `range` loop over `data` part way through: `ks` the keys visited so far, each
      once, and `rest` those still to come. */
  ghost predicate Visiting<V>(data: map<string, V>, ks: seq<string>, rest: set<string>) {
    && rest <= data.Keys
    && (forall i, j :: 0 <= i < j < |ks| ==> ks[i] != ks[j])
    && (forall k :: k in ks ==> k in data)
    && (forall k :: k in data ==> (k in ks <==> k !in rest))
  }

  lemma VisitStep<V>(data: map<string, V>, ks: seq<string>, rest: set<string>, k: string)
    requires Visiting(data, ks, rest) && k in rest
    ensures Visiting(data, ks + [k], rest - {k}) && (ks + [k])[..|ks|] == ks
  {
  }

  lemma VisitDone<V>(data: map<string, V>, ks: seq<string>)
    requires Visiting(data, ks, {})
    ensures Enumerates(data, ks)
  {
    assert data.Keys == set k | k in ks;
  }

  // ---------------------------------------------------------------- the database object

  /** One write of a handler's plan. */
  datatype Op = Put(ns: string, key: string, value: string) | Remove(ns: string, key: string)

  function Perform(t: Tables, op: Op, now: int, codec: Codec): (Tables, Status) {
    match op
    case Put(ns, key, value) => SetT(t, ns, key, value, now, codec)
    case Remove(ns, key) => DeleteT(t, ns, key, codec)
  }

  /** The tables after applying `ops` in order, and the status of each. */
  function ApplyAll(t: Tables, ops: seq<Op>, now: int, codec: Codec): (r: (Tables, seq<Status>))
    ensures |r.1| == |ops|
  {
    if |ops| == 0 then (t, [])
    else
      var front := ApplyAll(t, ops[..|ops| - 1], now, codec);
      var step := Perform(front.0, ops[|ops| - 1], now, codec);
      (step.0, front.1 + [step.1])
  }

  /** Applying one more write after a plan. */
  lemma ApplySnoc(t: Tables, ops: seq<Op>, op: Op, now: int, codec: Codec)
    ensures ApplyAll(t, ops + [op], now, codec).0 == Perform(ApplyAll(t, ops, now, codec).0, op, now, codec).0
  {
    assert (ops + [op])[..|ops|] == ops;
  }

  lemma ApplyStep(t: Tables, ops: seq<Op>, i: int, now: int, codec: Codec)
    requires 0 <= i < |ops|
    ensures var front := ApplyAll(t, ops[..i], now, codec);
      var step := Perform(front.0, ops[i], now, codec);
      ApplyAll(t, ops[..i + 1], now, codec) == (step.0, front.1 + [step.1])
  {
    assert ops[..i + 1][..i] == ops[..i];
  }

  class Database {
    var tables: Tables

    constructor ()
      ensures tables == Empty
    {
      tables := Empty;
    }

    method Set(ns: string, key: string, value: string, now: int, codec: Codec) returns (status: Status)
      modifies this
      ensures (tables, status) == SetT(old(tables), ns, key, value, now, codec)
    {
      var r := SetT(tables, ns, key, value, now, codec);
      tables, status := r.0, r.1;
    }

    method Get(ns: string, key: string, codec: Codec) returns (value: Option<string>)
      ensures value == GetT(tables, ns, key, codec)
    {
      value := GetT(tables, ns, key, codec);
    }

    method Delete(ns: string, key: string, codec: Codec) returns (status: Status)
      modifies this
      ensures (tables, status) == DeleteT(old(tables), ns, key, codec)
    {
      var r := DeleteT(tables, ns, key, codec);
      tables, status := r.0, r.1;
    }

    method Do(op: Op, now: int, codec: Codec) returns (status: Status)
      modifies this
      ensures (tables, status) == Perform(old(tables), op, now, codec)
    {
      match op
      case Put(ns, key, value) => status := Set(ns, key, value, now, codec);
      case Remove(ns, key) => status := Delete(ns, key, codec);
    }

    /** Applies a handler's writes one after the other, ignoring their errors as the
        handlers do. */
    method Apply(ops: seq<Op>, now: int, codec: Codec) returns (statuses: seq<Status>)
      modifies this
      ensures (tables, statuses) == ApplyAll(old(tables), ops, now, codec)
    {
      statuses := [];
      var i := 0;
      while i < |ops|
        invariant 0 <= i <= |ops|
        invariant (tables, statuses) == ApplyAll(old(tables), ops[..i], now, codec)
      {
        ApplyStep(old(tables), ops, i, now, codec);
        var s := Do(ops[i], now, codec);
        statuses := statuses + [s];
        i := i + 1;
      }
      assert ops[..i] == ops;
    }

    /** `GetAll`, scanning the rows of the append-only tables one by one. */
    method GetAll(ns: string, codec: Codec) returns (rows: Option<map<string, string>>)
      ensures rows == GetAllT(tables, ns, codec)
    {
      if ns == "messages" {
        rows := ScanMessages(tables.messages, codec);
      } else if ns == "logs" {
        var all := ScanLogs(tables.logs, codec);
        rows := Some(all);
      } else {
        rows := GetAllT(tables, ns, codec);
      }
    }
  }

  /** The message rows, one by one; a row that panics ends the scan. */
  method ScanMessages(messages: seq<MessageRow>, codec: Codec) returns (rows: Option<map<string, string>>)
    ensures rows == AllMessages(messages, codec)
  {
    var acc: map<string, string> := map[];
    var i := 0;
    while i < |messages|
      invariant 0 <= i <= |messages|
      invariant AllMessages(messages[..i], codec) == Some(acc)
    {
      var x := messages[i];
      assert messages[..i + 1][..i] == messages[..i];
      var p := MessagePayload(x, codec);
      if p.None? {
        MessagesPanicSticks(messages, i + 1, codec);
        return None;
      }
      acc := acc[Itoa(x.id) := codec.encode(JObj(p.value))];
      i := i + 1;
    }
    assert messages[..i] == messages;
    rows := Some(acc);
  }

  /** The log rows, one by one. */
  method ScanLogs(logs: seq<LogRow>, codec: Codec) returns (rows: map<string, string>)
    ensures rows == AllLogs(logs, codec)
  {
    rows := map[];
    var i := 0;
    while i < |logs|
      invariant 0 <= i <= |logs|
      invariant AllLogs(logs[..i], codec) == rows
    {
      var x := logs[i];
      assert logs[..i + 1][..i] == logs[..i];
      rows := rows[Itoa(x.id) := codec.encode(JObj(LogObject(x)))];
      i := i + 1;
    }
    assert logs[..i] == logs;
  }

  /** Once a row panics the whole listing fails. */
  lemma {:induction false} MessagesPanicSticks(rows: seq<MessageRow>, n: int, codec: Codec)
    requires 0 < n <= |rows| && AllMessages(rows[..n], codec).None?
    ensures AllMessages(rows, codec).None?
    decreases |rows| - n
  {
    if n < |rows| {
      assert rows[..n + 1][..n] == rows[..n];
      MessagesPanicSticks(rows, n + 1, codec);
    } else {
      assert rows[..n] == rows;
    }
  }
}
