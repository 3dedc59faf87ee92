/** The attempt log (handlers/AttemptLogs.go): each player's record in `attempt_logs`
    holds one string to which every POST appends a line `attempt+type+seconds`; GET
    returns that string, to the player or, for any address, to an admin. */
module AttemptLogs {
  import opened Basics
  import opened Json
  import opened Text
  import opened Store
  import Admins

  /** The line a POST appends: attempt, type and Unix seconds, joined by `+`. */
  function LogLine(attempt: string, typ: string, now: int): string {
    attempt + "+" + typ + "+" + Itoa(now)
  }

  /** The logs after one POST: the old string, a newline and the new line. */
  function Appended(logs: string, attempt: string, typ: string, now: int): (r: string)
    ensures |r| > |logs| && r[..|logs|] == logs && r[|logs|] == '\n'
    ensures r[|logs| + 1..] == LogLine(attempt, typ, now)
  {
    logs + "\n" + LogLine(attempt, typ, now)
  }

  /** The record text a player without one starts from. It is built by concatenation,
      so it is a well-formed object only for an address free of quotes and backslashes. */
  function FallbackText(email: string): string {
    "{\"email\":\"" + email + "\",\"logs\":\"\"}"
  }

  /** The decoded record is an object whose `logs` member is a string (anything else
      fails the handler's type assertion or its decoding). */
  predicate HasLogs(j: Option<Json>) {
    j.Some? && j.value.JObj? && "logs" in j.value.fields && j.value.fields["logs"].JStr?
  }

  datatype Reply = HttpError(code: int, message: string) | Saved | Data(logs: string) | Aborted | Empty

  /** The record's text as the handler reads it: the stored one, else the fallback. */
  function RecordText(t: Tables, email: string, codec: Codec): string {
    match GetT(t, "attempt_logs", email, codec)
    case Some(s) => s
    case None => FallbackText(email)
  }

  /** The request body decoded into `struct { Log string "logs"; Typpe string "type" }`. */
  function Request(body: Option<Json>): (r: Option<(string, string)>)
    ensures r.Some? ==> body.Some? && (body.value.JNull? || body.value.JObj?)
  {
    match DecodeObject(body)
    case None => None
    case Some(m) =>
      match (StrMember(m, "logs"), StrMember(m, "type"))
      case (Some(a), Some(b)) => Some((a, b))
      case _ => None
  }

  /** POST: append the line to the record's `logs` string and store the record. */
  function PostPlan(t: Tables, email: string, body: Option<Json>, now: int, codec: Codec): (r: (Reply, seq<Op>))
    ensures Request(body).None? ==> r == (HttpError(400, "Invalid request"), [])
    ensures r.0.Saved? <==> (Request(body).Some? && HasLogs(codec.decode(RecordText(t, email, codec))))
    ensures r.0.Saved? ==> var m := codec.decode(RecordText(t, email, codec)).value.fields;
      var req := Request(body).value;
      r.1 == [Put("attempt_logs", email, codec.encode(JObj(m["logs" := JStr(Appended(m["logs"].s, req.0, req.1, now))])))]
    ensures !r.0.Saved? ==> r.1 == []
  {
    match Request(body)
    case None => (HttpError(400, "Invalid request"), [])
    case Some(req) =>
      match codec.decode(RecordText(t, email, codec))
      case None => (HttpError(500, "Error loading account"), [])
      case Some(JObj(m)) =>
        if "logs" in m && m["logs"].JStr? then
          var rec := m["logs" := JStr(Appended(m["logs"].s, req.0, req.1, now))];
          (Saved, [Put("attempt_logs", email, codec.encode(JObj(rec)))])
        else (Aborted, [])
      case Some(JNull) => (Aborted, [])
      case Some(_) => (HttpError(500, "Error loading account"), [])
  }

  /** GET: the logs of the requester, or of the `email` an admin names. */
  function GetPlan(t: Tables, requester: string, members: set<string>, query: map<string, string>, codec: Codec): (r: Reply)
    ensures TrimSpace(Param(query, "email")) != "" && !Admins.Listed(members, requester) ==> r == HttpError(403, "forbidden")
    ensures var email := if TrimSpace(Param(query, "email")) != "" then TrimSpace(Param(query, "email")) else requester;
      r.Data? && (TrimSpace(Param(query, "email")) == "" || Admins.Listed(members, requester)) ==>
        match GetT(t, "attempt_logs", email, codec)
        case None => r.logs == ""
        case Some(raw) => HasLogs(codec.decode(raw)) && codec.decode(raw).value.fields["logs"] == JStr(r.logs)
  {
    var target := TrimSpace(Param(query, "email"));
    if target != "" && !Admins.Listed(members, requester) then HttpError(403, "forbidden")
    else
      var email := if target != "" then target else requester;
      match GetT(t, "attempt_logs", email, codec)
      case None => Data("")
      case Some(raw) =>
        match codec.decode(raw)
        case None => HttpError(500, "Error loading account")
        case Some(JObj(m)) => if "logs" in m && m["logs"].JStr? then Data(m["logs"].s) else Aborted
        case Some(JNull) => Aborted
        case Some(_) => HttpError(500, "Error loading account")
  }

  /** `AttemptLog`: POST appends, GET reads; other verbs answer nothing. */
  method AttemptLog(db: Database, admins: Admins.Admins?, session: string, requester: Option<string>, verb: string,
                    body: Option<Json>, query: map<string, string>, now: int, codec: Codec) returns (reply: Reply)
    modifies db
    ensures session == "" || requester.None? || requester.value == "" ==>
      reply == HttpError(401, "Unauthorized") && db.tables == old(db.tables)
    ensures session != "" && requester.Some? && requester.value != "" && verb == "POST" ==>
      var p := PostPlan(old(db.tables), requester.value, body, now, codec);
      reply == p.0 && db.tables == ApplyAll(old(db.tables), p.1, now, codec).0
    ensures session != "" && requester.Some? && requester.value != "" && verb == "GET" ==>
      reply == GetPlan(old(db.tables), requester.value, Admins.MembersOf(admins), query, codec) && db.tables == old(db.tables)
    ensures verb != "POST" && verb != "GET" && session != "" && requester.Some? && requester.value != "" ==>
      reply == Empty && db.tables == old(db.tables)
  {
    if session == "" || requester.None? || requester.value == "" {
      return HttpError(401, "Unauthorized");
    }
    if verb == "POST" {
      var p := PostPlan(db.tables, requester.value, body, now, codec);
      var _ := db.Apply(p.1, now, codec);
      return p.0;
    }
    if verb == "GET" {
      Admins.IsAdminListed(admins, requester.value);
      return GetPlan(db.tables, requester.value, Admins.MembersOf(admins), query, codec);
    }
    reply := Empty;
  }

  lemma StoredLogs(t: Tables, email: string, v: string, now: int, codec: Codec)
    ensures GetT(ApplyAll(t, [Put("attempt_logs", email, v)], now, codec).0, "attempt_logs", email, codec) == Some(v)
  {
    assert [Put("attempt_logs", email, v)][..0] == [];
  }

  /** A player's POST followed by their own GET returns the old logs with the new line
      appended. */
  lemma PostThenGet(t: Tables, email: string, members: set<string>, body: Option<Json>, now: int, codec: Codec)
    requires Lawful(codec) && email != ""
    requires PostPlan(t, email, body, now, codec).0.Saved?
    ensures var after := ApplyAll(t, PostPlan(t, email, body, now, codec).1, now, codec).0;
      var req := Request(body).value;
      var logs := codec.decode(RecordText(t, email, codec)).value.fields["logs"].s;
      GetPlan(after, email, members, map[], codec) == Data(Appended(logs, req.0, req.1, now))
  {
    var m := codec.decode(RecordText(t, email, codec)).value.fields;
    var req := Request(body).value;
    var rec := m["logs" := JStr(Appended(m["logs"].s, req.0, req.1, now))];
    StoredLogs(t, email, codec.encode(JObj(rec)), now, codec);
    assert codec.decode(codec.encode(JObj(rec))) == Some(JObj(rec));
    assert TrimSpace(Param(map[], "email")) == "";
  }

  /** A player with no record starts from empty logs, when the address is one the
      fallback text decodes for: the first POST leaves exactly one line. */
  lemma FirstPost(t: Tables, email: string, members: set<string>, body: Option<Json>, now: int, codec: Codec)
    requires Lawful(codec) && email != "" && Request(body).Some?
    requires GetT(t, "attempt_logs", email, codec).None?
    requires codec.decode(FallbackText(email)) == Some(JObj(map["email" := JStr(email), "logs" := JStr("")]))
    ensures var after := ApplyAll(t, PostPlan(t, email, body, now, codec).1, now, codec).0;
      var req := Request(body).value;
      GetPlan(after, email, members, map[], codec) == Data("\n" + LogLine(req.0, req.1, now))
  {
    var req := Request(body).value;
    assert RecordText(t, email, codec) == FallbackText(email);
    PostThenGet(t, email, members, body, now, codec);
    assert Appended("", req.0, req.1, now) == "\n" + LogLine(req.0, req.1, now);
  }
}
