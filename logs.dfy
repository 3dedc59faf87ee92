/** The event-log listing (handlers/logs.go): every decodable row of the `logs` table,
    filtered by the `user` and `namespace` query parameters and sorted by time. A player
    may name only themselves as `user`; an admin may name anyone. */
module Logs {
  import opened Basics
  import opened Json
  import opened Text
  import opened Store
  import opened Sorting
  import Admins

  /** One listed log entry (`LogEntry`). */
  datatype LogEntry = LogEntry(id: int, namespace: string, key: string, event: string, data: string, createdAt: int)

  /** `json.Unmarshal` of a listed value into a `LogEntry`: `null` gives the zero entry; a
      value that is not an object, or a member of the wrong type, is an error. */
  function DecodeEntry(j: Option<Json>): (r: Option<LogEntry>)
    ensures r.Some? ==> j.Some? && (j.value.JNull? || j.value.JObj?)
  {
    match DecodeObject(j)
    case None => None
    case Some(m) =>
      match (IntMember(m, "id"), StrMember(m, "namespace"), StrMember(m, "key"), StrMember(m, "event"),
             StrMember(m, "data"), IntMember(m, "created_at"))
      case (Some(id), Some(ns), Some(key), Some(event), Some(data), Some(at)) =>
        Some(LogEntry(id, ns, key, event, data, at))
      case _ => None
  }

  /** The entry a stored row lists as. */
  function EntryOf(row: LogRow): LogEntry {
    LogEntry(row.id, row.namespace, row.key, row.event, row.data, row.createdAt)
  }

  /** Whether the filters keep an entry: `user` matches the key with letter case
      ignored, `ns` the namespace exactly; an empty filter keeps everything. */
  predicate Kept(e: LogEntry, user: string, ns: string) {
    (user == "" || Lower(e.key) == user) && (ns == "" || e.namespace == ns)
  }

  /** The kept entries, in the order `ks` visits the listing. */
  function Selected(all: map<string, string>, ks: seq<string>, user: string, ns: string, codec: Codec): (r: seq<LogEntry>)
    requires forall k :: k in ks ==> k in all
    ensures forall i :: 0 <= i < |r| ==> Kept(r[i], user, ns)
  {
    if |ks| == 0 then []
    else
      var front := Selected(all, ks[..|ks| - 1], user, ns, codec);
      match DecodeEntry(codec.decode(all[ks[|ks| - 1]]))
      case Some(e) => if Kept(e, user, ns) then front + [e] else front
      case None => front
  }

  /** An entry is listed exactly when some stored value decodes to it and the filters keep it. */
  lemma {:induction false} SelectedMembers(all: map<string, string>, ks: seq<string>, user: string, ns: string,
                                           codec: Codec, e: LogEntry)
    requires forall k :: k in ks ==> k in all
    ensures e in Selected(all, ks, user, ns, codec) <==>
      Kept(e, user, ns) && exists k :: k in ks && DecodeEntry(codec.decode(all[k])) == Some(e)
  {
    if |ks| > 0 {
      var front := ks[..|ks| - 1];
      SelectedMembers(all, front, user, ns, codec, e);
      assert forall k :: k in ks <==> k in front || k == ks[|ks| - 1];
    }
  }

  /** Visiting one more key adds its entry when it decodes and the filters keep it. */
  lemma SelectedSnoc(all: map<string, string>, ks: seq<string>, k: string, user: string, ns: string, codec: Codec)
    requires (forall x :: x in ks ==> x in all) && k in all
    ensures Selected(all, ks + [k], user, ns, codec) ==
      match DecodeEntry(codec.decode(all[k]))
      case Some(e) => if Kept(e, user, ns) then Selected(all, ks, user, ns, codec) + [e] else Selected(all, ks, user, ns, codec)
      case None => Selected(all, ks, user, ns, codec)
  {
    assert (ks + [k])[..|ks|] == ks;
  }

  /** The `for _, v := range all` loop. */
  method CollectLogs(all: map<string, string>, user: string, ns: string, codec: Codec)
    returns (out: seq<LogEntry>, ghost ks: seq<string>)
    ensures Enumerates(all, ks) && out == Selected(all, ks, user, ns, codec)
  {
    out := [];
    ks := [];
    var rest := all.Keys;
    while rest != {}
      invariant Visiting(all, ks, rest)
      invariant out == Selected(all, ks, user, ns, codec)
      decreases rest
    {
      var k :| k in rest;
      var e := DecodeEntry(codec.decode(all[k]));
      SelectedSnoc(all, ks, k, user, ns, codec);
      VisitStep(all, ks, rest, k);
      if e.Some? {
        if user != "" && Lower(e.value.key) != user {
        } else if ns != "" && e.value.namespace != ns {
        } else {
          out := out + [e.value];
        }
      }
      ks := ks + [k];
      rest := rest - {k};
    }
    VisitDone(all, ks);
  }

  predicate CreatedBefore(a: LogEntry, b: LogEntry) {
    a.createdAt < b.createdAt
  }

  lemma CreatedStrictWeak(s: seq<LogEntry>)
    ensures StrictWeakOn(s, CreatedBefore)
  {
  }

  // ---------------------------------------------------------------- the handler

  datatype LogsReply = LogsError(code: int, message: string) | LogsListing(entries: seq<LogEntry>)

  /** The requester's address as compared: trimmed and lower-cased. */
  function Requester(raw: string): string {
    Lower(TrimSpace(raw))
  }

  function UserFilter(query: map<string, string>): string {
    Lower(TrimSpace(Param(query, "user")))
  }

  function NamespaceFilter(query: map<string, string>): string {
    TrimSpace(Param(query, "namespace"))
  }

  /** A player asking for someone else's logs is refused; admins may ask for anyone's. */
  predicate Forbidden(members: set<string>, raw: string, query: map<string, string>) {
    UserFilter(query) != "" && UserFilter(query) != Requester(raw) && !Admins.Listed(members, Requester(raw))
  }

  /** What the listing answers for the stored logs `all`, visited in the order `ks`: the
      kept entries, sorted by time. */
  ghost predicate Answers(reply: LogsReply, all: map<string, string>, ks: seq<string>, query: map<string, string>, codec: Codec) {
    Enumerates(all, ks) && reply.LogsListing?
    && SortedBy(reply.entries, CreatedBefore)
    && multiset(reply.entries) == multiset(Selected(all, ks, UserFilter(query), NamespaceFilter(query), codec))
  }

  /** The listing once the logs are read: filter, then sort. */
  method ListFrom(all: map<string, string>, query: map<string, string>, codec: Codec)
    returns (reply: LogsReply, ghost ks: seq<string>)
    ensures Answers(reply, all, ks, query, codec)
  {
    var user := Lower(TrimSpace(Param(query, "user")));
    var ns := TrimSpace(Param(query, "namespace"));
    var out;
    out, ks := CollectLogs(all, user, ns, codec);
    CreatedStrictWeak(out);
    reply := LogsListing(SortBy(out, CreatedBefore));
  }

  /** `LogsHandler`. `requester` is what the session resolves to (None on an error). */
  method ListLogs(db: Database, admins: Admins.Admins?, session: string, requester: Option<string>,
                  query: map<string, string>, codec: Codec) returns (reply: LogsReply, ghost ks: seq<string>)
    ensures session == "" || requester.None? || requester.value == "" ==> reply == LogsError(401, "unauthenticated")
    ensures session != "" && requester.Some? && requester.value != "" ==>
      (reply == LogsError(403, "forbidden") <==> Forbidden(Admins.MembersOf(admins), requester.value, query))
    ensures session != "" && requester.Some? && requester.value != "" && !Forbidden(Admins.MembersOf(admins), requester.value, query) ==>
      Answers(reply, AllLogs(db.tables.logs, codec), ks, query, codec)
  {
    ks := [];
    if session == "" || requester.None? || requester.value == "" {
      return LogsError(401, "unauthenticated"), ks;
    }
    var who := Lower(TrimSpace(requester.value));
    var user := Lower(TrimSpace(Param(query, "user")));
    Admins.IsAdminListed(admins, who);
    var isAdmin := Admins.IsAdmin(admins, who);
    if user != "" && user != who && !isAdmin {
      return LogsError(403, "forbidden"), ks;
    }
    var all := db.GetAll("logs", codec);
    reply, ks := ListFrom(all.value, query, codec);
  }

  // ---------------------------------------------------------------- properties

  /** With a `user` filter, a player sees only entries whose key is their own address. */
  lemma PlayerSeesOwn(all: map<string, string>, ks: seq<string>, members: set<string>, raw: string,
                      query: map<string, string>, codec: Codec, e: LogEntry)
    requires forall k :: k in ks ==> k in all
    requires UserFilter(query) != "" && !Forbidden(members, raw, query) && !Admins.Listed(members, Requester(raw))
    requires e in Selected(all, ks, UserFilter(query), NamespaceFilter(query), codec)
    ensures Lower(e.key) == Requester(raw)
  {
  }

  /** The stored row with the largest key lists as itself: its value decodes back to the row. */
  lemma LastRowListed(rows: seq<LogRow>, codec: Codec)
    requires Lawful(codec) && |rows| > 0
    requires InInt64(rows[|rows| - 1].id) && InInt64(rows[|rows| - 1].createdAt)
    ensures var x := rows[|rows| - 1];
      Itoa(x.id) in AllLogs(rows, codec)
      && DecodeEntry(codec.decode(AllLogs(rows, codec)[Itoa(x.id)])) == Some(EntryOf(x))
  {
    var x := rows[|rows| - 1];
    assert codec.decode(codec.encode(JObj(LogObject(x)))) == Some(JObj(LogObject(x)));
    assert (x.id as real).Floor == x.id && (x.createdAt as real).Floor == x.createdAt;
  }

  /** The row with the largest key is in every listing its filters keep, whatever
      order the listing is visited in. */
  lemma LastRowSelected(rows: seq<LogRow>, ks: seq<string>, user: string, nsFilter: string, codec: Codec)
    requires Lawful(codec) && |rows| > 0
    requires InInt64(rows[|rows| - 1].id) && InInt64(rows[|rows| - 1].createdAt)
    requires Kept(EntryOf(rows[|rows| - 1]), user, nsFilter)
    requires Enumerates(AllLogs(rows, codec), ks)
    ensures EntryOf(rows[|rows| - 1]) in Selected(AllLogs(rows, codec), ks, user, nsFilter, codec)
  {
    var all := AllLogs(rows, codec);
    LastRowListed(rows, codec);
    EnumeratedKeys(all, ks);
    SelectedMembers(all, ks, user, nsFilter, codec, EntryOf(rows[|rows| - 1]));
  }

  /** An event logged with `Set("logs", key, "ns|event|data")` is in the next listing that
      its filters keep, whatever order the listing is visited in. */
  lemma LoggedThenListed(t: Tables, key: string, ns: string, event: string, data: string, now: int,
                         user: string, nsFilter: string, ks: seq<string>, codec: Codec)
    requires Lawful(codec) && InInt64(t.lastLogId + 1) && InInt64(now)
    requires '|' !in ns && '|' !in event
    requires Kept(LogEntry(t.lastLogId + 1, ns, key, event, data, now), user, nsFilter)
    requires Enumerates(AllLogs(SetT(t, "logs", key, ns + "|" + event + "|" + data, now, codec).0.logs, codec), ks)
    ensures LogEntry(t.lastLogId + 1, ns, key, event, data, now)
      in Selected(AllLogs(SetT(t, "logs", key, ns + "|" + event + "|" + data, now, codec).0.logs, codec), ks, user, nsFilter, codec)
  {
    var value := ns + "|" + event + "|" + data;
    LogRoundTrip(ns, event, data);
    LogAppends(t, key, value, now, codec);
    var rows := SetT(t, "logs", key, value, now, codec).0.logs;
    assert EntryOf(rows[|rows| - 1]) == LogEntry(t.lastLogId + 1, ns, key, event, data, now);
    LastRowSelected(rows, ks, user, nsFilter, codec);
  }

  /** A player who names no `user` is not refused, and the filters then keep every
      entry of the namespace asked for, whoever's key it carries. */
  lemma NoUserListsEveryone(members: set<string>, raw: string, query: map<string, string>, e: LogEntry)
    requires Param(query, "user") == "" && e.namespace == NamespaceFilter(query)
    ensures !Forbidden(members, raw, query) && Kept(e, UserFilter(query), NamespaceFilter(query))
  {
    assert TrimSpace("") == "" && Lower("") == "";
  }
}
