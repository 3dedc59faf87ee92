/** The message handlers (handlers/messages.go): sending a message between a player and
    the organisers' inbox, and listing the messages a requester may see, oldest first,
    with the labels the chat shows. */
module Messages {
  import opened Basics
  import opened Json
  import opened Text
  import opened Store
  import opened Sorting
  import Admins

  /** The `Message` struct a stored message decodes into. */
  datatype Message = Message(id: int, from: string, to: string, levelId: string, typ: string,
                             content: string, createdAt: int, read: int)

  // ---------------------------------------------------------------- sending

  /** The recipient as stored: trimmed, and the inbox in any letter case becomes the
      lowercase inbox address. */
  function Recipient(to: string): (r: string)
    ensures EqualFold(TrimSpace(to), AdminInbox) ==> r == AdminInbox
    ensures !EqualFold(TrimSpace(to), AdminInbox) ==> r == TrimSpace(to)
  {
    var t := TrimSpace(to);
    if Lower(t) == AdminInbox then AdminInbox else t
  }

  /** The sender as stored: an admin writing to anyone but the inbox writes as the inbox. */
  function Sender(from: string, isAdmin: bool, to: string): string {
    if isAdmin && Lower(TrimSpace(to)) != AdminInbox then AdminInbox else from
  }

  function MessageType(raw: string): string {
    var t := TrimSpace(raw);
    if t == "" then "lead" else t
  }

  /** The five fields a send stores, in order: from, to, level, type, content. */
  function SentFields(from: string, isAdmin: bool, payload: map<string, string>): seq<string> {
    var to := Param(payload, "to");
    [Sender(from, isAdmin, to), Recipient(to), TrimSpace(Param(payload, "level")),
     MessageType(Param(payload, "type")), TrimSpace(Param(payload, "content"))]
  }

  datatype SendReply = SendError(code: int, message: string) | Sent

  /** `SendMessageHandler`: its answer and its write. `from` is the `email` cookie. */
  function SendPlan(verb: string, from: string, members: set<string>, payload: map<string, string>): (r: (SendReply, seq<Op>))
    ensures r.0.Sent? <==> verb == "POST" && from != "" && TrimSpace(Param(payload, "to")) != ""
    ensures r.0.Sent? ==> r.1 == [Put("messages", Recipient(Param(payload, "to")),
                                      Join(SentFields(from, Admins.Listed(members, from), payload), '|'))]
    ensures !r.0.Sent? ==> r.1 == []
  {
    if verb != "POST" then (SendError(405, "method not allowed"), [])
    else if from == "" then (SendError(401, "unauthenticated"), [])
    else
      var to := TrimSpace(Param(payload, "to"));
      if to == "" then (SendError(400, "missing to"), [])
      else
        var f := SentFields(from, Admins.Listed(members, from), payload);
        (Sent, [Put("messages", f[1], Join(f, '|'))])
  }

  method SendMessage(db: Database, admins: Admins.Admins?, verb: string, from: string, payload: map<string, string>,
                     now: int, codec: Codec) returns (reply: SendReply)
    modifies db
    ensures var p := SendPlan(verb, from, Admins.MembersOf(admins), payload);
      reply == p.0 && db.tables == ApplyAll(old(db.tables), p.1, now, codec).0
  {
    var p := SendPlan(verb, from, Admins.MembersOf(admins), payload);
    var _ := db.Apply(p.1, now, codec);
    reply := p.0;
  }

  /** An admin writing to a player writes as the inbox; the inbox, however it is
      spelled, is stored as the lowercase address. */
  lemma AdminWritesAsInbox(from: string, members: set<string>, payload: map<string, string>)
    requires Admins.Listed(members, from)
    ensures !EqualFold(TrimSpace(Param(payload, "to")), AdminInbox) ==> SentFields(from, true, payload)[0] == AdminInbox
    ensures EqualFold(TrimSpace(Param(payload, "to")), AdminInbox) ==> SentFields(from, true, payload)[1] == AdminInbox
  {
    LowerIsLower(AdminInbox);
  }

  /** The message a send stores, as the listing decodes it back: the five fields (when
      none of the first four holds a `|` and the sender does not open a JSON value),
      the next id, the clock and unread. */
  lemma SendThenList(t: Tables, verb: string, from: string, members: set<string>, payload: map<string, string>,
                     now: int, codec: Codec)
    requires Lawful(codec) && InInt64(now) && InInt64(t.lastMessageId + 1)
    requires SendPlan(verb, from, members, payload).0.Sent?
    requires var f := SentFields(from, Admins.Listed(members, from), payload);
      (forall k :: 0 <= k < 4 ==> '|' !in f[k]) && !Verbatim(Join(f, '|'))
    requires AllMessages(t.messages, codec).Some?
    ensures var after := ApplyAll(t, SendPlan(verb, from, members, payload).1, now, codec).0;
      var f := SentFields(from, Admins.Listed(members, from), payload);
      var all := GetAllT(after, "messages", codec);
      all.Some? && Itoa(t.lastMessageId + 1) in all.value
      && DecodeMessage(codec.decode(all.value[Itoa(t.lastMessageId + 1)]))
         == Some(Message(t.lastMessageId + 1, f[0], f[1], f[2], f[3], f[4], now, 0))
  {
    var f := SentFields(from, Admins.Listed(members, from), payload);
    var v := Join(f, '|');
    var id := t.lastMessageId + 1;
    var row := MessageRow(id, MessageData(v, codec), now, 0);
    var ops := SendPlan(verb, from, members, payload).1;
    assert ops == [Put("messages", f[1], v)];
    PutMessage(t, f[1], v, now, codec);
    MessagesListing(ApplyAll(t, ops, now, codec).0, codec);
    MessageRoundTrip(f);
    var obj := MessageObject(v);
    var p := obj["id" := JNum(id as real)]["created_at" := JNum(now as real)]["read" := JNum(0 as real)];
    StoredPayload(row, obj, codec);
    ListedRow(t.messages, row, codec);
    StoredDecodes(obj, f, id, now, codec);
  }

  /** A send appends one row, with the next id, the clock and unread. */
  lemma PutMessage(t: Tables, key: string, v: string, now: int, codec: Codec)
    ensures ApplyAll(t, [Put("messages", key, v)], now, codec).0.messages
         == t.messages + [MessageRow(t.lastMessageId + 1, MessageData(v, codec), now, 0)]
  {
    var ops := [Put("messages", key, v)];
    assert ops[..0] == [];
  }

  lemma StoredPayload(row: MessageRow, obj: map<string, Json>, codec: Codec)
    requires row.data == codec.encode(JObj(obj)) && Lawful(codec)
    ensures MessagePayload(row, codec)
         == Some(obj["id" := JNum(row.id as real)]["created_at" := JNum(row.createdAt as real)]["read" := JNum(row.read as real)])
  {
    assert codec.decode(row.data) == Some(JObj(obj));
  }

  lemma MessagesListing(t: Tables, codec: Codec)
    ensures GetAllT(t, "messages", codec) == AllMessages(t.messages, codec)
  {
  }

  /** A listed row adds its entry to the listing. */
  lemma ListedRow(rows: seq<MessageRow>, x: MessageRow, codec: Codec)
    requires AllMessages(rows, codec).Some? && MessagePayload(x, codec).Some?
    ensures AllMessages(rows + [x], codec)
         == Some(AllMessages(rows, codec).value[Itoa(x.id) := codec.encode(JObj(MessagePayload(x, codec).value))])
  {
    assert (rows + [x])[..|rows|] == rows;
  }

  lemma StoredDecodes(obj: map<string, Json>, f: seq<string>, id: int, now: int, codec: Codec)
    requires |f| == 5 && InInt64(id) && InInt64(now) && Lawful(codec)
    requires obj == map["from" := JStr(f[0]), "to" := JStr(f[1]), "level_id" := JStr(f[2]),
                        "type" := JStr(f[3]), "content" := JStr(f[4])]
    ensures DecodeMessage(codec.decode(codec.encode(JObj(obj["id" := JNum(id as real)]["created_at" := JNum(now as real)]["read" := JNum(0 as real)]))))
      == Some(Message(id, f[0], f[1], f[2], f[3], f[4], now, 0))
  {
    var m := obj["id" := JNum(id as real)]["created_at" := JNum(now as real)]["read" := JNum(0 as real)];
    assert codec.decode(codec.encode(JObj(m))) == Some(JObj(m));
    assert (id as real).Floor == id && (now as real).Floor == now && (0 as real).Floor == 0;
  }

  // ---------------------------------------------------------------- listing

  /** `json.Unmarshal` of a listed value into a `Message`: `null` gives the zero
      message; a value that is not an object, or a member of the wrong type, is an error. */
  function DecodeMessage(j: Option<Json>): (r: Option<Message>)
    ensures r.Some? ==> j.Some? && (j.value.JNull? || j.value.JObj?)
  {
    match DecodeObject(j)
    case None => None
    case Some(m) =>
      match (IntMember(m, "id"), StrMember(m, "from"), StrMember(m, "to"), StrMember(m, "level_id"),
             StrMember(m, "type"), StrMember(m, "content"), IntMember(m, "created_at"), IntMember(m, "read"))
      case (Some(id), Some(from), Some(to), Some(lvl), Some(typ), Some(content), Some(at), Some(rd)) =>
        Some(Message(id, from, to, lvl, typ, content, at, rd))
      case _ => None
  }

  /** Whether the listing keeps a message: an admin in admin mode without `user` sees
      everything to or from themselves or the inbox; everyone else sees what is to or
      from `user` (letter case ignored). */
  predicate Shown(m: Message, raw: string, user: string, adminAll: bool) {
    if adminAll then
      EqualFold(m.to, raw) || EqualFold(m.from, raw) || EqualFold(m.to, AdminInbox) || EqualFold(m.from, AdminInbox)
    else EqualFold(m.to, user) || EqualFold(m.from, user)
  }

  /** The kept messages, in the order `ks` visits the listing. */
  function Selected(all: map<string, string>, ks: seq<string>, raw: string, user: string, adminAll: bool,
                    codec: Codec): (r: seq<Message>)
    requires forall k :: k in ks ==> k in all
    ensures forall i :: 0 <= i < |r| ==> Shown(r[i], raw, user, adminAll)
  {
    if |ks| == 0 then []
    else
      var front := Selected(all, ks[..|ks| - 1], raw, user, adminAll, codec);
      match DecodeMessage(codec.decode(all[ks[|ks| - 1]]))
      case Some(m) => if Shown(m, raw, user, adminAll) then front + [m] else front
      case None => front
  }

  /** A message is listed exactly when some stored value decodes to it and it is shown. */
  lemma {:induction false} SelectedMembers(all: map<string, string>, ks: seq<string>, raw: string, user: string,
                                           adminAll: bool, codec: Codec, m: Message)
    requires forall k :: k in ks ==> k in all
    ensures m in Selected(all, ks, raw, user, adminAll, codec) <==>
      Shown(m, raw, user, adminAll) && exists k :: k in ks && DecodeMessage(codec.decode(all[k])) == Some(m)
  {
    if |ks| > 0 {
      var front := ks[..|ks| - 1];
      SelectedMembers(all, front, raw, user, adminAll, codec, m);
      assert forall k :: k in ks <==> k in front || k == ks[|ks| - 1];
    }
  }

  /** Visiting one more key adds its message when it decodes and is shown. */
  lemma SelectedSnoc(all: map<string, string>, ks: seq<string>, k: string, raw: string, user: string,
                     adminAll: bool, codec: Codec)
    requires (forall x :: x in ks ==> x in all) && k in all
    ensures Selected(all, ks + [k], raw, user, adminAll, codec) ==
      match DecodeMessage(codec.decode(all[k]))
      case Some(m) => if Shown(m, raw, user, adminAll) then Selected(all, ks, raw, user, adminAll, codec) + [m]
                      else Selected(all, ks, raw, user, adminAll, codec)
      case None => Selected(all, ks, raw, user, adminAll, codec)
  {
    assert (ks + [k])[..|ks|] == ks;
  }

  /** The `for _, v := range all` loop. */
  method CollectMessages(all: map<string, string>, raw: string, user: string, adminAll: bool, codec: Codec)
    returns (msgs: seq<Message>, ghost ks: seq<string>)
    ensures Enumerates(all, ks) && msgs == Selected(all, ks, raw, user, adminAll, codec)
  {
    msgs := [];
    ks := [];
    var rest := all.Keys;
    while rest != {}
      invariant Visiting(all, ks, rest)
      invariant msgs == Selected(all, ks, raw, user, adminAll, codec)
      decreases rest
    {
      var k :| k in rest;
      var m := DecodeMessage(codec.decode(all[k]));
      SelectedSnoc(all, ks, k, raw, user, adminAll, codec);
      VisitStep(all, ks, rest, k);
      if m.Some? && Shown(m.value, raw, user, adminAll) {
        msgs := msgs + [m.value];
      }
      ks := ks + [k];
      rest := rest - {k};
    }
    VisitDone(all, ks);
  }

  predicate CreatedBefore(a: Message, b: Message) {
    a.createdAt < b.createdAt
  }

  lemma CreatedStrictWeak(s: seq<Message>)
    ensures StrictWeakOn(s, CreatedBefore)
  {
  }

  /** What the checksum hashes of one message: its id, sender, recipient and time. */
  function ChecksumPart(m: Message): string {
    Itoa(m.id) + m.from + m.to + Itoa(m.createdAt)
  }

  function ChecksumInput(msgs: seq<Message>): string {
    if |msgs| == 0 then "" else ChecksumInput(msgs[..|msgs| - 1]) + ChecksumPart(msgs[|msgs| - 1])
  }

  /** One listed message with its labels. */
  datatype Row = Row(id: int, from: string, to: string, levelId: string, typ: string, content: string,
                     createdAt: int, read: int, isMe: bool, fromLabel: string)

  /** The labels: the requester's own messages say `You`; otherwise an admin sees the
      real sender and a player sees the inbox. */
  function RowOf(m: Message, raw: string, adminMode: bool): (r: Row)
    ensures r.isMe <==> EqualFold(m.from, raw)
    ensures r.fromLabel == (if r.isMe then "You" else if adminMode then m.from else AdminInbox)
    ensures r.from == (if (!r.isMe && !adminMode) || EqualFold(m.from, AdminInbox) then AdminInbox else m.from)
    ensures (r.id, r.to, r.levelId, r.typ, r.content, r.createdAt, r.read)
         == (m.id, m.to, m.levelId, m.typ, m.content, m.createdAt, m.read)
  {
    var isMe := EqualFold(m.from, raw);
    var tag := if isMe then "You" else if adminMode then m.from else AdminInbox;
    var shownFrom := if (!isMe && !adminMode) || EqualFold(m.from, AdminInbox) then AdminInbox else m.from;
    Row(m.id, shownFrom, m.to, m.levelId, m.typ, m.content, m.createdAt, m.read, isMe, tag)
  }

  /** A player never sees another player's address as a sender: every row is their own
      or shows the inbox. */
  lemma PlayerSeesOnlyInbox(m: Message, raw: string)
    ensures RowOf(m, raw, false).fromLabel in {"You", AdminInbox}
    ensures RowOf(m, raw, false).from == AdminInbox || EqualFold(RowOf(m, raw, false).from, raw)
  {
  }

  /** The `for _, m := range msgs` loop that builds the response rows. */
  method LabelRows(msgs: seq<Message>, raw: string, adminMode: bool) returns (rows: seq<Row>)
    ensures rows == Rows(msgs, raw, adminMode)
  {
    rows := [];
    var i := 0;
    while i < |msgs|
      invariant 0 <= i <= |msgs| && |rows| == i
      invariant forall j :: 0 <= j < i ==> rows[j] == RowOf(msgs[j], raw, adminMode)
    {
      rows := rows + [RowOf(msgs[i], raw, adminMode)];
      i := i + 1;
    }
    assert rows == Rows(msgs, raw, adminMode);
  }

  /** The `strconv.Itoa` / `h.Write` loop over the sorted messages. */
  method ChecksumText(msgs: seq<Message>) returns (text: string)
    ensures text == ChecksumInput(msgs)
  {
    text := "";
    var i := 0;
    while i < |msgs|
      invariant 0 <= i <= |msgs|
      invariant text == ChecksumInput(msgs[..i])
    {
      assert msgs[..i + 1][..i] == msgs[..i];
      text := text + ChecksumPart(msgs[i]);
      i := i + 1;
    }
    assert msgs[..i] == msgs;
  }

  /** The response rows of the sorted messages. */
  function Rows(msgs: seq<Message>, raw: string, adminMode: bool): (r: seq<Row>)
    ensures |r| == |msgs| && forall i :: 0 <= i < |msgs| ==> r[i] == RowOf(msgs[i], raw, adminMode)
  {
    seq(|msgs|, i requires 0 <= i < |msgs| => RowOf(msgs[i], raw, adminMode))
  }

  datatype ListReply = ListError(code: int, message: string) | NotModified | Listing(checksum: string, rows: seq<Row>) | ListAborted

  /** Whether the listing is in admin mode: an admin asking with `mode=admin`. */
  predicate AdminMode(members: set<string>, raw: string, query: map<string, string>) {
    Admins.Listed(members, raw) && EqualFold(Param(query, "mode"), "admin")
  }

  /** Whose messages are listed: the requester, or the `user` an admin names in admin mode. */
  function Target(members: set<string>, raw: string, query: map<string, string>): string {
    var userParam := TrimSpace(Param(query, "user"));
    if userParam != "" && AdminMode(members, raw, query) then userParam else Lower(raw)
  }

  /** What the listing answers for the stored messages `all`, visited in the order `ks`. */
  ghost predicate Answers(reply: ListReply, all: map<string, string>, ks: seq<string>, sorted: seq<Message>,
                          members: set<string>, raw: string, query: map<string, string>, hash: string -> string, codec: Codec)
  {
    var adminMode := AdminMode(members, raw, query);
    Enumerates(all, ks) && SortedBy(sorted, CreatedBefore)
    && multiset(sorted) == multiset(Selected(all, ks, raw, Target(members, raw, query),
                                             adminMode && TrimSpace(Param(query, "user")) == "", codec))
    && var sum := hash(ChecksumInput(sorted));
       reply == if Param(query, "checksum") != "" && Param(query, "checksum") == sum then NotModified
                else Listing(sum, Rows(sorted, raw, adminMode))
  }

  /** The listing once the messages are read: filter, sort, checksum, labels. */
  method ListFrom(all: map<string, string>, members: set<string>, raw: string, query: map<string, string>,
                  hash: string -> string, codec: Codec) returns (reply: ListReply, ghost ks: seq<string>, ghost sorted: seq<Message>)
    ensures Answers(reply, all, ks, sorted, members, raw, query, hash, codec)
  {
    var userParam := TrimSpace(Param(query, "user"));
    var adminMode := Admins.Listed(members, raw) && EqualFold(Param(query, "mode"), "admin");
    var user := Lower(raw);
    if userParam != "" && adminMode {
      user := userParam;
    }
    var msgs;
    msgs, ks := CollectMessages(all, raw, user, adminMode && userParam == "", codec);
    CreatedStrictWeak(msgs);
    var s := SortBy(msgs, CreatedBefore);
    sorted := s;
    var text := ChecksumText(s);
    var sum := hash(text);
    var client := Param(query, "checksum");
    if client != "" && client == sum {
      return NotModified, ks, sorted;
    }
    var rows := LabelRows(s, raw, adminMode);
    reply := Listing(sum, rows);
  }

  /** `ListMessagesHandler`. `raw` is the `email` cookie and `hash` the SHA-256 hex digest. */
  method ListMessages(db: Database, admins: Admins.Admins?, session: string, raw: string, query: map<string, string>,
                      hash: string -> string, codec: Codec) returns (reply: ListReply, ghost ks: seq<string>, ghost sorted: seq<Message>)
    ensures session == "" || raw == "" ==> reply == ListError(401, "unauthenticated")
    ensures session != "" && raw != "" && GetAllT(db.tables, "messages", codec).None? ==> reply == ListAborted
    ensures session != "" && raw != "" && GetAllT(db.tables, "messages", codec).Some? ==>
      Answers(reply, GetAllT(db.tables, "messages", codec).value, ks, sorted, Admins.MembersOf(admins), raw, query, hash, codec)
  {
    ks, sorted := [], [];
    if session == "" || raw == "" {
      return ListError(401, "unauthenticated"), ks, sorted;
    }
    var all := db.GetAll("messages", codec);
    if all.None? {
      return ListAborted, ks, sorted;
    }
    Admins.IsAdminListed(admins, raw);
    reply, ks, sorted := ListFrom(all.value, Admins.MembersOf(admins), raw, query, hash, codec);
  }

  /** A player (not in admin mode) sees only messages to or from themselves. */
  lemma PlayerSeesOwn(all: map<string, string>, ks: seq<string>, members: set<string>, raw: string,
                      query: map<string, string>, codec: Codec, m: Message)
    requires forall k :: k in ks ==> k in all
    requires !AdminMode(members, raw, query)
    requires m in Selected(all, ks, raw, Target(members, raw, query), false, codec)
    ensures EqualFold(m.to, raw) || EqualFold(m.from, raw)
  {
    SelectedMembers(all, ks, raw, Target(members, raw, query), false, codec, m);
    LowerIsLower(raw);
  }
}
