/** The AI lead handlers (handlers/ai.go): the rotation over the Gemini API keys, the
    site-wide switch for AI leads, the conversation history put into the prompt, the
    reading of the model's true/false verdict and the checkpoint a confirmed lead
    advances. The model call itself is outside the model: each attempt's outcome is an
    input, and so is the level's walkthrough text. */
module AI {
  import opened Basics
  import opened Json
  import opened Text
  import opened Store
  import opened Sorting
  import Admins
  import Levels
  import Users

  // ---------------------------------------------------------------- API keys

  const KeySlots: nat := 15

  function KeyName(i: int): string {
    "GEMINI_API_KEY_" + Itoa(i)
  }

  /** `os.Getenv`: an unset variable reads as "". */
  function Getenv(env: map<string, string>, k: string): string {
    if k in env then env[k] else ""
  }

  /** The non-empty `GEMINI_API_KEY_1` .. `GEMINI_API_KEY_<n>`, in index order. */
  function KeysUpTo(env: map<string, string>, n: nat): (r: seq<string>)
    ensures |r| <= n
    ensures forall i :: 0 <= i < |r| ==> r[i] != ""
  {
    if n == 0 then []
    else
      var v := Getenv(env, KeyName(n));
      KeysUpTo(env, n - 1) + (if v != "" then [v] else [])
  }

  /** A key is loaded exactly when it is non-empty and some slot up to `n` holds it. */
  lemma {:induction false} KeysUpToHolds(env: map<string, string>, n: nat, k: string)
    ensures k in KeysUpTo(env, n) <==> k != "" && exists i :: 1 <= i <= n && Getenv(env, KeyName(i)) == k
  {
    if n > 0 {
      KeysUpToHolds(env, n - 1, k);
    }
  }

  /** The keys the ring holds once loading has been tried: a ring that has keys keeps them. */
  function Loaded(keys: seq<string>, env: map<string, string>): seq<string> {
    if |keys| > 0 then keys else KeysUpTo(env, KeySlots)
  }

  /** `geminiKeys` and `geminiIdx`. */
  class KeyRing {
    var keys: seq<string>
    var idx: nat

    ghost predicate Valid()
      reads this
    {
      forall i :: 0 <= i < |keys| ==> keys[i] != ""
    }

    constructor ()
      ensures keys == [] && idx == 0 && Valid()
    {
      keys := [];
      idx := 0;
    }

    /** `loadGeminiKeys`: an empty ring is filled from the environment, slot by slot. */
    method Load(env: map<string, string>)
      requires Valid()
      modifies this
      ensures Valid() && idx == old(idx)
      ensures keys == Loaded(old(keys), env)
    {
      if |keys| > 0 {
        return;
      }
      var i := 1;
      while i <= KeySlots
        invariant 1 <= i <= KeySlots + 1
        invariant keys == KeysUpTo(env, i - 1) && idx == old(idx)
      {
        var k := Getenv(env, KeyName(i));
        if k != "" {
          keys := keys + [k];
        }
        i := i + 1;
      }
    }

    /** `pickGeminiKey`: the key at `idx mod n`, after which the index moves on; "" when
        there are no keys. */
    method Pick(env: map<string, string>) returns (k: string)
      requires Valid()
      modifies this
      ensures Valid()
      ensures keys == Loaded(old(keys), env)
      ensures |keys| == 0 ==> k == "" && idx == old(idx)
      ensures |keys| > 0 ==> k == keys[old(idx) % |keys|] && k != "" && idx == old(idx) + 1
    {
      if |keys| == 0 {
        Load(env);
      }
      if |keys| == 0 {
        return "";
      }
      k := keys[idx % |keys|];
      idx := idx + 1;
    }
  }

  /** The keys `n` successive picks return, starting at index `idx`. */
  function Picks(keys: seq<string>, idx: nat, n: nat): (r: seq<string>)
    requires |keys| > 0
    ensures |r| == n
    decreases n
  {
    if n == 0 then [] else [keys[idx % |keys|]] + Picks(keys, idx + 1, n - 1)
  }

  lemma {:induction false} PicksAt(keys: seq<string>, idx: nat, n: nat, j: nat)
    requires |keys| > 0 && j < n
    ensures Picks(keys, idx, n)[j] == keys[(idx + j) % |keys|]
    decreases n
  {
    if j > 0 {
      PicksAt(keys, idx + 1, n - 1, j - 1);
    }
  }

  lemma {:induction false} MulAtLeast(n: nat, d: int)
    requires d >= 1
    ensures n * d >= n
    decreases d
  {
    if d > 1 {
      MulAtLeast(n, d - 1);
      assert n * d == n * (d - 1) + n;
    }
  }

  /** The remainder is the unique r in [0, n) with a == n * q + r. */
  lemma ModUnique(a: int, n: int, q: int, r: int)
    requires n > 0 && a == n * q + r && 0 <= r < n
    ensures a % n == r
  {
    var q' := a / n;
    var r' := a % n;
    assert a == n * q' + r';
    if q' < q {
      MulAtLeast(n, q - q');
    } else if q' > q {
      MulAtLeast(n, q' - q);
    }
  }

  /** From a fresh ring, the first round of picks returns every key once, in order. */
  lemma PicksFirstRound(keys: seq<string>)
    requires |keys| > 0
    ensures Picks(keys, 0, |keys|) == keys
  {
    PicksRange(keys, 0, |keys|);
    assert keys[0..|keys|] == keys;
  }

  /** Picks that do not pass the end of the ring read a slice of it. */
  lemma {:induction false} PicksRange(keys: seq<string>, idx: nat, n: nat)
    requires |keys| > 0 && idx + n <= |keys|
    ensures Picks(keys, idx, n) == keys[idx..idx + n]
    decreases n
  {
    if n > 0 {
      PicksRange(keys, idx + 1, n - 1);
      ModSmall(idx, |keys|);
      assert keys[idx..idx + n] == [keys[idx]] + keys[idx + 1..idx + n];
    }
  }

  /** Picks repeat with period n: the rotation cycles through the keys in order. */
  lemma PicksPeriodic(keys: seq<string>, idx: nat, n: nat)
    requires |keys| > 0
    ensures Picks(keys, idx + |keys|, n) == Picks(keys, idx, n)
  {
    forall j | 0 <= j < n
      ensures Picks(keys, idx + |keys|, n)[j] == Picks(keys, idx, n)[j]
    {
      PicksAt(keys, idx + |keys|, n, j);
      PicksAt(keys, idx, n, j);
      ModShift(idx + j, |keys|);
    }
  }

  lemma ModSmall(j: nat, n: int)
    requires j < n
    ensures j % n == j
  {
    ModUnique(j, n, 0, j);
  }

  /** Adding the modulus leaves the remainder unchanged. */
  lemma ModShift(x: nat, n: int)
    requires n > 0
    ensures (x + n) % n == x % n
  {
    var q, r := x / n, x % n;
    assert x == n * q + r;
    assert n * (q + 1) == n * q + n;
    ModUnique(x + n, n, q + 1, r);
  }

  // ---------------------------------------------------------------- the switch

  /** A `settings/ai_leads` value that turns AI leads off. */
  predicate LeadsOff(v: string) {
    TrimSpace(Lower(v)) == "0" || TrimSpace(Lower(v)) == "false"
  }

  /** The `enabled` member of a toggle request (on by default). */
  function Enabled(payload: map<string, Json>): (on: bool)
    ensures "enabled" !in payload || payload["enabled"].JNull? ==> on
    ensures "enabled" in payload && payload["enabled"].JBool? ==> on == payload["enabled"].b
    ensures "enabled" in payload && payload["enabled"].JNum? ==> (on <==> payload["enabled"].n <= -1.0 || 1.0 <= payload["enabled"].n)
    ensures "enabled" in payload && payload["enabled"].JStr? ==>
      (!on <==> TrimSpace(Lower(payload["enabled"].s)) in {"0", "false", "off"})
  {
    if "enabled" in payload then
      match payload["enabled"]
      case JBool(b) => b
      case JStr(s) =>
        var w := TrimSpace(Lower(s));
        !(w == "0" || w == "false" || w == "off")
      case JNum(n) => Trunc(n) != 0
      case _ => true
    else true
  }

  datatype ToggleReply = Refused(code: int, message: string) | Toggled(enabled: bool)

  /** The value the toggle stores. */
  function SwitchValue(on: bool): string {
    if on then "1" else "0"
  }

  /** `ToggleAILeadsHandler`: admins only; stores "1" or "0" under `settings/ai_leads`. */
  method ToggleLeads(db: Database, admins: Admins.Admins?, requester: Option<string>, verb: string,
                     payload: map<string, Json>, codec: Codec) returns (reply: ToggleReply)
    modifies db
    ensures verb != "POST" ==> reply == Refused(405, "method not allowed") && db.tables == old(db.tables)
    ensures verb == "POST" && (requester.None? || requester.value == "" || !Admins.Listed(Admins.MembersOf(admins), requester.value)) ==>
      reply == Refused(403, "forbidden") && db.tables == old(db.tables)
    ensures verb == "POST" && requester.Some? && requester.value != "" && Admins.Listed(Admins.MembersOf(admins), requester.value) ==>
      reply.Toggled?
    ensures reply.Toggled? ==> (reply.enabled == Enabled(payload)
      && db.tables == SetT(old(db.tables), "settings", "ai_leads", SwitchValue(reply.enabled), 0, codec).0)
  {
    if verb != "POST" {
      return Refused(405, "method not allowed");
    }
    if requester.None? || requester.value == "" || admins == null || !Admins.IsAdmin(admins, requester.value) {
      Admins.IsAdminListed(admins, if requester.Some? then requester.value else "");
      return Refused(403, "forbidden");
    }
    Admins.IsAdminListed(admins, requester.value);
    var enabled := true;
    if "enabled" in payload && !payload["enabled"].JNull? {
      var v := payload["enabled"];
      if v.JBool? {
        enabled := v.b;
      } else if v.JStr? {
        var s := TrimSpace(Lower(v.s));
        if s == "0" || s == "false" || s == "off" {
          enabled := false;
        } else if s == "1" || s == "true" || s == "on" {
          enabled := true;
        }
      } else if v.JNum? {
        enabled := Trunc(v.n) != 0;
      }
    }
    var val := "1";
    if !enabled {
      val := "0";
    }
    var _ := db.Set("settings", "ai_leads", val, 0, codec);
    reply := Toggled(enabled);
  }

  /** What the toggle stores is what the lead handler's switch reads back. */
  lemma ToggleThenGate(t: Tables, on: bool, codec: Codec)
    ensures var after := SetT(t, "settings", "ai_leads", SwitchValue(on), 0, codec).0;
      GetT(after, "settings", "ai_leads", codec) == Some(SwitchValue(on)) && (LeadsOff(SwitchValue(on)) <==> !on)
  {
    if on {
      assert Lower("1") == "1";
      assert TrimSpace("1") == "1" by { TrimNoop("1", GoSpace); }
    } else {
      assert Lower("0") == "0";
      assert TrimSpace("0") == "0" by { TrimNoop("0", GoSpace); }
    }
  }

  // ---------------------------------------------------------------- history

  /** One message of the conversation history. */
  datatype Entry = Entry(ts: int, from: string, to: string, content: string)

  /** The level a stored message is about: `level_id`, else `level`, else `LevelID`. */
  function MessageLevel(mm: map<string, Json>): string {
    var a := Users.StrOr(mm, "level_id");
    if a != "" then a
    else
      var b := Users.StrOr(mm, "level");
      if b != "" then b else Users.StrOr(mm, "LevelID")
  }

  /** `created_at` as an integer: a number truncated, a string parsed, else 0. */
  function CreatedAt(mm: map<string, Json>): int {
    if "created_at" in mm then
      match mm["created_at"]
      case JNum(n) => Trunc(n)
      case JStr(s) => (match ParseInt(s) case Some(v) => v case None => 0)
      case _ => 0
    else 0
  }

  /** The message involves the player or the admin inbox (letter case ignored). */
  predicate Involves(e: Entry, user: string) {
    Lower(e.from) == user || Lower(e.to) == user || Lower(e.from) == AdminInbox || Lower(e.to) == AdminInbox
  }

  /** The history entry of one stored message, if it belongs in the history. */
  function EntryOf(raw: string, level: string, user: string, codec: Codec): (r: Option<Entry>)
    ensures r.Some? ==> Involves(r.value, user)
  {
    match DecodeObject(codec.decode(raw))
    case None => None
    case Some(mm) =>
      if MessageLevel(mm) != level then None
      else
        var e := Entry(CreatedAt(mm), Users.StrOr(mm, "from"), Users.StrOr(mm, "to"), Users.StrOr(mm, "content"));
        if Involves(e, user) then Some(e) else None
  }

  /** The history entries of the messages, visited in the order `ks`. */
  function HistoryIn(msgs: map<string, string>, ks: seq<string>, level: string, user: string, codec: Codec): (r: seq<Entry>)
    requires forall k :: k in ks ==> k in msgs
    ensures forall i :: 0 <= i < |r| ==> Involves(r[i], user)
  {
    if |ks| == 0 then []
    else
      var front := HistoryIn(msgs, ks[..|ks| - 1], level, user, codec);
      match EntryOf(msgs[ks[|ks| - 1]], level, user, codec)
      case Some(e) => front + [e]
      case None => front
  }

  /** An entry is in the history exactly when some message yields it. */
  lemma {:induction false} HistoryMembers(msgs: map<string, string>, ks: seq<string>, level: string, user: string, codec: Codec, e: Entry)
    requires forall k :: k in ks ==> k in msgs
    ensures e in HistoryIn(msgs, ks, level, user, codec) <==> exists k :: k in ks && EntryOf(msgs[k], level, user, codec) == Some(e)
  {
    if |ks| > 0 {
      var front := ks[..|ks| - 1];
      HistoryMembers(msgs, front, level, user, codec, e);
      assert forall k :: k in ks <==> k in front || k == ks[|ks| - 1];
    }
  }

  predicate TsLess(a: Entry, b: Entry) {
    a.ts < b.ts
  }

  lemma TsStrictWeak(s: seq<Entry>)
    ensures StrictWeakOn(s, TsLess)
  {
  }

  /** The `for _, v := range msgsMap` loop, in the order Go happens to visit the map. */
  method CollectHistory(msgs: map<string, string>, level: string, user: string, codec: Codec)
    returns (h: seq<Entry>, ghost ks: seq<string>)
    ensures Enumerates(msgs, ks) && h == HistoryIn(msgs, ks, level, user, codec)
  {
    h := [];
    ks := [];
    var rest := msgs.Keys;
    while rest != {}
      invariant rest <= msgs.Keys
      invariant forall k :: k in ks ==> k in msgs
      invariant (forall i, j :: 0 <= i < j < |ks| ==> ks[i] != ks[j])
      invariant forall k :: k in msgs ==> (k in ks <==> k !in rest)
      invariant h == HistoryIn(msgs, ks, level, user, codec)
      decreases rest
    {
      var k :| k in rest;
      var e := EntryOf(msgs[k], level, user, codec);
      assert (ks + [k])[..|ks|] == ks;
      if e.Some? {
        h := h + [e.value];
      }
      ks := ks + [k];
      rest := rest - {k};
    }
    assert msgs.Keys == set k | k in ks;
  }

  /** Who a history line is from. */
  function Speaker(from: string, user: string): string {
    if EqualFold(from, user) then "User" else if EqualFold(from, AdminInbox) then "Admin" else "User"
  }

  /** One line of the history: who wrote it and what. */
  function Line(e: Entry, user: string): string {
    Speaker(e.from, user) + ": " + e.content + "\n"
  }

  function Lines(h: seq<Entry>, user: string): string {
    if |h| == 0 then "" else Lines(h[..|h| - 1], user) + Line(h[|h| - 1], user)
  }

  lemma LinesSnoc(h: seq<Entry>, i: nat, user: string)
    requires i < |h|
    ensures Lines(h[..i + 1], user) == Lines(h[..i], user) + Line(h[i], user)
  {
    assert h[..i + 1][..i] == h[..i];
  }

  /** The history section of the prompt: nothing without history. */
  function HistoryText(h: seq<Entry>, user: string): string {
    if |h| == 0 then "" else "\n\nConversation history:\n" + Lines(h, user)
  }

  /** The `strings.Builder` loop that writes the history. */
  method RenderHistory(h: seq<Entry>, user: string) returns (text: string)
    ensures text == HistoryText(h, user)
  {
    if |h| == 0 {
      return "";
    }
    var lines := "";
    var i := 0;
    while i < |h|
      invariant 0 <= i <= |h|
      invariant lines == Lines(h[..i], user)
    {
      LinesSnoc(h, i, user);
      lines := lines + Line(h[i], user);
      i := i + 1;
    }
    assert h[..i] == h;
    text := "\n\nConversation history:\n" + lines;
  }

  // ---------------------------------------------------------------- prompt

  const Instruction: string := "You are given the following walkthrough. Answer the user's question if any. Reply with ONLY the word true or false (lowercase) indicating whether the statement/question is valid based on the walkthrough. No other text."

  /** `strings.Join` with a string separator. */
  function JoinWith(parts: seq<string>, sep: string): string {
    if |parts| == 0 then ""
    else if |parts| == 1 then parts[0]
    else parts[0] + sep + JoinWith(parts[1..], sep)
  }

  /** `json.Unmarshal(walkthrough, &arr)` into a `[]string`: the strings it leaves in
      `arr` (an element of another type is left "") and whether it reported no error. */
  function WalkParts(walk: string, codec: Codec): (r: (seq<string>, bool))
    ensures r.1 ==> codec.decode(walk).Some? && (codec.decode(walk).value.JNull? || codec.decode(walk).value.JArr?)
  {
    match codec.decode(walk)
    case Some(JNull) => ([], true)
    case Some(JArr(items)) =>
      (seq(|items|, i requires 0 <= i < |items| => if items[i].JStr? then items[i].s else ""),
       forall i :: 0 <= i < |items| ==> items[i].JStr? || items[i].JNull?)
    case _ => ([], false)
  }

  /** The bot prefix from the bot file: the first of its `system`, `prompt`,
      `instructions`, `bot`, `description` and `intro` members that is a non-blank string. */
  function BotPrefix(file: Option<string>, codec: Codec): (r: string)
    ensures r != "" ==> TrimSpace(r) != ""
  {
    match file
    case None => ""
    case Some(text) =>
      match DecodeObject(codec.decode(text))
      case None => ""
      case Some(m) => FirstNonBlank(m, ["system", "prompt", "instructions", "bot", "description", "intro"])
  }

  function FirstNonBlank(m: map<string, Json>, names: seq<string>): (r: string)
    ensures r == "" ==> forall i :: 0 <= i < |names| ==> TrimSpace(Users.StrOr(m, names[i])) == ""
    ensures r != "" ==> TrimSpace(r) != "" && exists i :: (0 <= i < |names| && Users.StrOr(m, names[i]) == r
      && forall j :: 0 <= j < i ==> TrimSpace(Users.StrOr(m, names[j])) == "")
  {
    if |names| == 0 then ""
    else
      var s := Users.StrOr(m, names[0]);
      if TrimSpace(s) != "" then
        assert Users.StrOr(m, names[0]) == s;
        s
      else
        var r := FirstNonBlank(m, names[1..]);
        assert forall i :: 1 <= i < |names| ==> names[1..][i - 1] == names[i];
        if r != "" then
          var k :| 0 <= k < |names[1..]| && Users.StrOr(m, names[1..][k]) == r
            && forall j :: 0 <= j < k ==> TrimSpace(Users.StrOr(m, names[1..][j])) == "";
          assert Users.StrOr(m, names[k + 1]) == r;
          r
        else r
  }

  /** The text sent to the model. */
  function Prompt(bot: string, walk: string, question: string, history: string, codec: Codec): string {
    var w := WalkParts(walk, codec);
    var body := if w.1 then JoinWith(w.0, "\n\n") else walk;
    var asked := if TrimSpace(question) != "" then body + "\n\nUser question: " + question else body;
    var p := Instruction + "\n\nWalkthrough:\n" + asked;
    (if bot != "" then bot + "\n\n" + p else p) + history
  }

  /** The prompt for a lead on `level`: its history is every message about that level
      that involves the player or the inbox, oldest first. */
  method BuildPrompt(msgs: map<string, string>, level: string, user: string, walk: string, question: string,
                     bot: string, codec: Codec) returns (prompt: string, h: seq<Entry>, ghost ks: seq<string>)
    ensures Enumerates(msgs, ks)
    ensures multiset(h) == multiset(HistoryIn(msgs, ks, level, user, codec)) && SortedBy(h, TsLess)
    ensures prompt == Prompt(bot, walk, question, HistoryText(h, user), codec)
  {
    var found;
    found, ks := CollectHistory(msgs, level, user, codec);
    TsStrictWeak(found);
    h := SortBy(found, TsLess);
    var text := RenderHistory(h, user);
    var w := WalkParts(walk, codec);
    var p := walk;
    if w.1 {
      p := JoinWith(w.0, "\n\n");
    }
    if TrimSpace(question) != "" {
      p := p + "\n\nUser question: " + question;
    }
    p := Instruction + "\n\nWalkthrough:\n" + p;
    if bot != "" {
      p := bot + "\n\n" + p;
    }
    prompt := p + text;
  }

  // ---------------------------------------------------------------- verdict

  /** The characters `\b` treats as word characters. */
  predicate WordChar(c: char) {
    'a' <= c <= 'z' || 'A' <= c <= 'Z' || '0' <= c <= '9' || c == '_'
  }

  /** `w` (lowercase) occurs at `i` as a whole word, in any letter case. */
  predicate WordAt(s: string, i: int, w: string) {
    0 <= i && i + |w| <= |s| && (forall m :: 0 <= m < |w| ==> LowerChar(s[i + m]) == w[m])
    && (i == 0 || !WordChar(s[i - 1])) && (i + |w| == |s| || !WordChar(s[i + |w|]))
  }

  function Word(b: bool): string {
    if b then "true" else "false"
  }

  /** No verdict word starts before `i`. */
  predicate NoWordBefore(s: string, i: int) {
    forall j :: 0 <= j < i ==> !WordAt(s, j, "true") && !WordAt(s, j, "false")
  }

  function VerdictFrom(s: string, i: nat): Option<bool>
    decreases |s| - i
  {
    if i >= |s| then None
    else if WordAt(s, i, "true") then Some(true)
    else if WordAt(s, i, "false") then Some(false)
    else VerdictFrom(s, i + 1)
  }

  /** The first case-insensitive whole word `true` or `false` of the reply, if any
      (`(?i)\b(true|false)\b`). */
  function Verdict(s: string): Option<bool> {
    VerdictFrom(s, 0)
  }

  lemma {:induction false} VerdictFromSound(s: string, i: nat, b: bool) returns (k: int)
    requires VerdictFrom(s, i) == Some(b)
    ensures i <= k && WordAt(s, k, Word(b))
    ensures forall j :: i <= j < k ==> !WordAt(s, j, "true") && !WordAt(s, j, "false")
    decreases |s| - i
  {
    if WordAt(s, i, "true") || WordAt(s, i, "false") {
      k := i;
    } else {
      k := VerdictFromSound(s, i + 1, b);
    }
  }

  /** A verdict is the first whole word true or false of the reply. */
  lemma VerdictSound(s: string, b: bool)
    requires Verdict(s) == Some(b)
    ensures exists k :: WordAt(s, k, Word(b)) && NoWordBefore(s, k)
  {
    var k := VerdictFromSound(s, 0, b);
    assert WordAt(s, k, Word(b)) && NoWordBefore(s, k);
  }

  lemma {:induction false} VerdictFromComplete(s: string, i: nat, k: int, b: bool)
    requires i <= k && WordAt(s, k, Word(b))
    requires forall j :: i <= j < k ==> !WordAt(s, j, "true") && !WordAt(s, j, "false")
    ensures VerdictFrom(s, i) == Some(b)
    decreases k - i
  {
    if i < k {
      VerdictFromComplete(s, i + 1, k, b);
    } else if !b {
      assert WordAt(s, k, "false");
      assert LowerChar(s[k + 0]) == "false"[0] == 'f';
      assert "true"[0] == 't';
      assert !WordAt(s, k, "true");
    }
  }

  /** The first whole word true or false of the reply is its verdict; a reply without
      one has none. */
  lemma VerdictComplete(s: string, k: int, b: bool)
    requires WordAt(s, k, Word(b)) && NoWordBefore(s, k)
    ensures Verdict(s) == Some(b)
  {
    VerdictFromComplete(s, 0, k, b);
  }

  // ---------------------------------------------------------------- checkpoint

  predicate TokenChar(c: char) {
    'a' <= c <= 'z' || 'A' <= c <= 'Z' || '0' <= c <= '9' || c == '.'
  }

  predicate IsToken(t: string) {
    |t| > 0 && forall i :: 0 <= i < |t| ==> TokenChar(t[i])
  }

  /** The number of token characters `s` starts with. */
  function RunLength(s: string): (n: nat)
    ensures n <= |s| && IsToken(s[..n]) == (n > 0)
    ensures n < |s| ==> !TokenChar(s[n])
  {
    if |s| == 0 || !TokenChar(s[0]) then 0
    else
      var m := RunLength(s[1..]);
      assert s[..1 + m][1..] == s[1..][..m];
      1 + m
  }

  /** The matches of `[A-Za-z0-9\.]+`, left to right: the maximal runs of token characters. */
  function Tokens(s: string): (r: seq<string>)
    ensures forall k :: 0 <= k < |r| ==> IsToken(r[k])
    decreases |s|
  {
    if |s| == 0 then []
    else if !TokenChar(s[0]) then Tokens(s[1..])
    else
      var n := RunLength(s);
      [s[..n]] + Tokens(s[n..])
  }

  /** A walkthrough part matches the question: it contains it, lies inside it, or contains
      one of its tokens of two or more characters. An empty part never matches. */
  predicate PartMatches(p: string, q: string, toks: seq<string>) {
    p != "" && (Contains(p, q) || Contains(q, p) || exists k :: 0 <= k < |toks| && |toks[k]| >= 2 && Contains(p, toks[k]))
  }

  function FirstMatchFrom(parts: seq<string>, q: string, toks: seq<string>, i: nat): (r: int)
    requires i <= |parts|
    ensures r == -1 || i <= r < |parts|
    ensures r >= 0 ==> PartMatches(parts[r], q, toks) && forall j :: i <= j < r ==> !PartMatches(parts[j], q, toks)
    ensures r == -1 ==> forall j :: i <= j < |parts| ==> !PartMatches(parts[j], q, toks)
    decreases |parts| - i
  {
    if i == |parts| then -1
    else if PartMatches(parts[i], q, toks) then i
    else FirstMatchFrom(parts, q, toks, i + 1)
  }

  /** `matchedIdx`: the first part that matches, or -1 (also when the question has no
      tokens at all). */
  function MatchedIndex(parts: seq<string>, q: string, toks: seq<string>): (r: int)
    ensures -1 <= r < |parts|
    ensures r >= 0 ==> |toks| > 0 && PartMatches(parts[r], q, toks) && forall j :: 0 <= j < r ==> !PartMatches(parts[j], q, toks)
    ensures r == -1 ==> |toks| == 0 || forall j :: 0 <= j < |parts| ==> !PartMatches(parts[j], q, toks)
  {
    if |parts| > 0 && |toks| > 0 then FirstMatchFrom(parts, q, toks, 0) else -1
  }

  /** The matching loop over the lowercased walkthrough parts. */
  method MatchPart(parts: seq<string>, q: string, toks: seq<string>) returns (idx: int)
    ensures idx == MatchedIndex(parts, q, toks)
  {
    idx := -1;
    if |parts| == 0 || |toks| == 0 {
      return;
    }
    var i := 0;
    while i < |parts|
      invariant 0 <= i <= |parts|
      invariant forall j :: 0 <= j < i ==> !PartMatches(parts[j], q, toks)
    {
      var p := parts[i];
      if p != "" {
        if Contains(p, q) || Contains(q, p) {
          return i;
        }
        var k := 0;
        while k < |toks|
          invariant 0 <= k <= |toks|
          invariant forall m :: 0 <= m < k ==> !(|toks[m]| >= 2 && Contains(p, toks[m]))
        {
          if |toks[k]| >= 2 && Contains(p, toks[k]) {
            return i;
          }
          k := k + 1;
        }
      }
      i := i + 1;
    }
  }

  /** The type a level ID names: the part before its first `-`, or cryptic without one. */
  function LeadType(level: string): string {
    var parts := SplitN(level, '-', 2);
    if |parts| == 2 then parts[0] else "cryptic"
  }

  /** The entry a confirmed lead writes, if any: from the resumed entry, only a matched
      part whose index is the next checkpoint moves it, to that index (at most 9). */
  function Advance(prog: map<string, Users.Pair>, a: Levels.Account, typ: string, idx: int, count: int): (r: Option<Users.Pair>)
    ensures r.Some? ==> r.value.level == JStr(Levels.LevelID(typ, Levels.Current(a, typ))) && Users.Bounded(r.value)
    ensures r.Some? ==> 0 <= idx < count
    ensures r.Some? ==> r.value.checkpoint.n <= (Trunc(Users.Resume(prog, a, typ).checkpoint.n) + 1) as real
  {
    var p := Users.Resume(prog, a, typ);
    if 0 <= idx < count && idx == Trunc(p.checkpoint.n) + 1 then
      Some(Users.Pair(p.level, JNum(if idx as real > 9.0 then 9.0 else idx as real)))
    else None
  }

  /** At the current level with checkpoint c (a whole number below 9), the lead that
      matches part c + 1 moves the checkpoint to c + 1, and no other part moves it. */
  lemma AdvanceStep(prog: map<string, Users.Pair>, a: Levels.Account, typ: string, c: nat, idx: int, count: int)
    requires c < 9 && typ in prog && prog[typ] == Users.Pair(JStr(Levels.LevelID(typ, Levels.Current(a, typ))), JNum(c as real))
    ensures Advance(prog, a, typ, idx, count).Some? <==> idx == c + 1 && idx < count
    ensures Advance(prog, a, typ, idx, count).Some? ==> Advance(prog, a, typ, idx, count).value.checkpoint == JNum((c + 1) as real)
  {
    assert Users.Resume(prog, a, typ).checkpoint == JNum(c as real);
  }

  /** A stale entry (another level) starts over: only part 1 moves it, to checkpoint 1. */
  lemma AdvanceStale(prog: map<string, Users.Pair>, a: Levels.Account, typ: string, idx: int, count: int)
    requires typ in prog && prog[typ].level != JStr(Levels.LevelID(typ, Levels.Current(a, typ)))
    ensures Advance(prog, a, typ, idx, count).Some? <==> idx == 1 && 1 < count
    ensures Advance(prog, a, typ, idx, count).Some? ==> Advance(prog, a, typ, idx, count).value.checkpoint == JNum(1.0)
  {
    assert Users.Resume(prog, a, typ).checkpoint == JNum(0.0);
  }

  // ---------------------------------------------------------------- the lead handler

  /** What one model call gave. */
  datatype Outcome = ClientFailure(detail: string) | CallFailure(detail: string) | NoResponse | Text(text: string)

  /** The verdict an outcome carries, if any. */
  function Judge(o: Outcome): Option<bool> {
    match o
    case Text(x) => if TrimSpace(x) == "" then None else Verdict(TrimSpace(x))
    case _ => None
  }

  /** `lastErr` after an attempt without a verdict. */
  function AttemptError(o: Outcome): string {
    match o
    case ClientFailure(d) => "llm client error: " + d
    case CallFailure(d) => "llm error: " + d
    case NoResponse => "empty response"
    case Text(x) => if TrimSpace(x) == "" then "empty response" else "invalid response: " + TrimSpace(x)
  }

  /** How the model-call loop ends, and how many keys it picked. */
  datatype Asked = Judged(result: bool, attempts: nat) | NoVerdict(lastErr: string, attempts: nat)

  /** At most two attempts, each with the next key; the first verdict ends the loop. */
  function Ask(hasKeys: bool, outcomes: seq<Outcome>): (r: Asked)
    requires |outcomes| == 2
    ensures r.attempts <= 2 && (r.attempts == 0 <==> !hasKeys)
    ensures !hasKeys ==> r == NoVerdict("no api keys", 0)
    ensures r.Judged? ==> (Judge(outcomes[r.attempts - 1]) == Some(r.result)
      && forall j :: 0 <= j < r.attempts - 1 ==> Judge(outcomes[j]).None?)
    ensures r.NoVerdict? && hasKeys ==> Judge(outcomes[0]).None? && Judge(outcomes[1]).None? && r.lastErr == AttemptError(outcomes[1])
  {
    if !hasKeys then NoVerdict("no api keys", 0)
    else
      match Judge(outcomes[0])
      case Some(b) => Judged(b, 1)
      case None =>
        match Judge(outcomes[1])
        case Some(b) => Judged(b, 2)
        case None => NoVerdict(AttemptError(outcomes[1]), 2)
  }

  /** The `for attempt := 0; attempt < 2; attempt++` loop. */
  method AskModel(ring: KeyRing, env: map<string, string>, outcomes: seq<Outcome>) returns (asked: Asked)
    requires ring.Valid() && |outcomes| == 2
    modifies ring
    ensures ring.Valid()
    ensures asked == Ask(|Loaded(old(ring.keys), env)| > 0, outcomes)
    ensures ring.keys == Loaded(old(ring.keys), env) && ring.idx == old(ring.idx) + asked.attempts
  {
    var lastErr := "";
    var attempt := 0;
    while attempt < 2
      invariant 0 <= attempt <= 2 && ring.Valid()
      invariant attempt == 0 ==> ring.keys == old(ring.keys) && ring.idx == old(ring.idx)
      invariant attempt > 0 ==> (ring.keys == Loaded(old(ring.keys), env) && |ring.keys| > 0
        && ring.idx == old(ring.idx) + attempt)
      invariant attempt >= 1 ==> Judge(outcomes[0]).None?
      invariant attempt == 2 ==> Judge(outcomes[1]).None?
      invariant attempt > 0 ==> lastErr == AttemptError(outcomes[attempt - 1])
    {
      var key := ring.Pick(env);
      if key == "" {
        return NoVerdict("no api keys", 0);
      }
      var verdict := Judge(outcomes[attempt]);
      if verdict.Some? {
        return Judged(verdict.value, attempt + 1);
      }
      lastErr := AttemptError(outcomes[attempt]);
      attempt := attempt + 1;
    }
    return NoVerdict(lastErr, 2);
  }

  datatype LeadReply = HttpError(code: int, message: string) | Answer(result: bool) | Silent | Aborted

  /** The message records of an exchange: `from|to|level|lead|content`. */
  function LeadMessage(from: string, to: string, level: string, content: string): string {
    Join([from, to, level, "lead", content], '|')
  }

  /** The progress entry a confirmed lead writes for the player, if any: the walkthrough
      parts and the question are compared lowercased. */
  function LeadAdvance(a: Levels.Account, level: string, question: string, parts: seq<string>): Option<Users.Pair> {
    var lowered := seq(|parts|, i requires 0 <= i < |parts| => Lower(parts[i]));
    var q := Lower(question);
    Advance(Users.Stored(a), a, LeadType(level), MatchedIndex(lowered, q, Tokens(q)), |lowered|)
  }

  /** The writes after a verdict: the question and the verdict as messages, then, on
      `true`, the player's account with the advanced progress entry, when there is one. */
  function RecordPlan(t: Tables, user: string, level: string, question: string, verdict: bool,
                      parts: seq<string>, codec: Codec): (r: (LeadReply, seq<Op>))
    ensures |r.1| >= 2 && r.1[0] == Put("messages", user, LeadMessage(user, AdminInbox, level, question))
      && r.1[1] == Put("messages", user, LeadMessage(AdminInbox, user, level, Word(verdict)))
    ensures !verdict ==> r.0 == Answer(false) && |r.1| == 2
    ensures verdict ==> (r.0 == Answer(true) || r.0 == Aborted)
    ensures |r.1| > 2 <==> (verdict && LeadAdvance(Levels.StoredAccount(t, user, codec), level, question, parts).Some?
      && !Levels.StoredAccount(t, user, codec).NilMap?)
  {
    var ops := [Put("messages", user, LeadMessage(user, AdminInbox, level, question)),
                Put("messages", user, LeadMessage(AdminInbox, user, level, Word(verdict)))];
    if !verdict then (Answer(false), ops)
    else
      var a := Levels.StoredAccount(t, user, codec);
      match LeadAdvance(a, level, question, parts)
      case None => (Answer(true), ops)
      case Some(p) =>
        if a.NilMap? then (Aborted, ops)
        else
          var prog := Users.Stored(a)[LeadType(level) := p];
          (Answer(true), ops + [Put("accounts", user, codec.encode(JObj(Levels.Fields(a)["progress" := Users.ProgressJson(prog)])))])
  }

  /** Where the lead handler stands before it asks the model: an early answer, or the
      level, the trimmed question and the listed messages to ask about. */
  datatype Gate = Stop(reply: LeadReply) | Proceed(level: string, question: string, msgs: map<string, string>)

  /** The checks of `AILeadHandler`, in order. The level's walkthrough is an input (the
      `Level` record does not carry one). */
  function LeadGate(t: Tables, session: string, requester: Option<string>, verb: string,
                    payload: map<string, string>, walk: string, codec: Codec): (g: Gate)
    ensures g.Proceed? ==> (verb == "POST" && session != "" && requester.Some? && requester.value != ""
      && g.level != "" && Levels.LevelAt(t, g.level, codec).Some? && TrimSpace(walk) != ""
      && g.question != "" && GetAllT(t, "messages", codec) == Some(g.msgs))
    ensures g == Stop(HttpError(403, "ai leads disabled")) <==>
      verb == "POST" && session != "" && requester.Some? && requester.value != ""
      && GetT(t, "settings", "ai_leads", codec).Some? && LeadsOff(GetT(t, "settings", "ai_leads", codec).value)
  {
    if verb != "POST" then Stop(HttpError(405, "method not allowed"))
    else if session == "" || requester.None? || requester.value == "" then Stop(HttpError(401, "unauthenticated"))
    else
      var setting := GetT(t, "settings", "ai_leads", codec);
      if setting.Some? && LeadsOff(setting.value) then Stop(HttpError(403, "ai leads disabled"))
      else
        var level := TrimSpace(Param(payload, "level"));
        if level == "" then Stop(HttpError(400, "missing level"))
        else if Levels.LevelAt(t, level, codec).None? then Stop(HttpError(404, "no level"))
        else if TrimSpace(walk) == "" then Stop(HttpError(404, "no walkthrough"))
        else
          var question := TrimSpace(Param(payload, "question"));
          if question == "" then Stop(Silent)
          else match GetAllT(t, "messages", codec)
            case None => Stop(Aborted)
            case Some(msgs) => Proceed(level, question, msgs)
  }

  /** What follows the checks: the model is asked and its verdict recorded. */
  function AnswerPlan(t: Tables, user: string, level: string, question: string, parts: seq<string>,
                      hasKeys: bool, outcomes: seq<Outcome>, codec: Codec): (r: (LeadReply, seq<Op>, nat))
    requires |outcomes| == 2
    ensures r.2 > 0 <==> hasKeys
    ensures !hasKeys ==> r == (HttpError(500, "no api keys"), [], 0)
    ensures r.1 != [] ==> r.0.Answer? || r.0.Aborted?
  {
    match Ask(hasKeys, outcomes)
    case NoVerdict(err, n) => (HttpError(500, err), [], n)
    case Judged(b, n) =>
      var rec := RecordPlan(t, user, level, question, b, parts, codec);
      (rec.0, rec.1, n)
  }

  /** `AILeadHandler`: its answer, its writes and the number of keys it picked. */
  function LeadPlan(t: Tables, session: string, requester: Option<string>, verb: string, payload: map<string, string>,
                    walk: string, hasKeys: bool, outcomes: seq<Outcome>, codec: Codec): (r: (LeadReply, seq<Op>, nat))
    requires |outcomes| == 2
    ensures r.2 > 0 ==> hasKeys && LeadGate(t, session, requester, verb, payload, walk, codec).Proceed?
    ensures r.1 != [] ==> r.2 > 0 && (r.0.Answer? || r.0.Aborted?)
    ensures LeadGate(t, session, requester, verb, payload, walk, codec).Proceed? && !hasKeys ==> r == (HttpError(500, "no api keys"), [], 0)
  {
    match LeadGate(t, session, requester, verb, payload, walk, codec)
    case Stop(reply) => (reply, [], 0)
    case Proceed(level, question, _) =>
      AnswerPlan(t, Lower(requester.value), level, question, WalkParts(walk, codec).0, hasKeys, outcomes, codec)
  }

  /** The model calls and the writes after them. */
  method Respond(db: Database, ring: KeyRing, env: map<string, string>, now: int, user: string, level: string,
                 question: string, parts: seq<string>, outcomes: seq<Outcome>, codec: Codec) returns (reply: LeadReply)
    requires ring.Valid() && |outcomes| == 2
    modifies db, ring
    ensures ring.Valid() && ring.keys == Loaded(old(ring.keys), env)
    ensures var p := AnswerPlan(old(db.tables), user, level, question, parts, |Loaded(old(ring.keys), env)| > 0, outcomes, codec);
      reply == p.0 && db.tables == ApplyAll(old(db.tables), p.1, now, codec).0 && ring.idx == old(ring.idx) + p.2
  {
    var t0 := db.tables;
    ghost var hasKeys := |Loaded(ring.keys, env)| > 0;
    var asked := AskModel(ring, env, outcomes);
    AnswerPlanSplit(t0, user, level, question, parts, hasKeys, outcomes, codec);
    if asked.NoVerdict? {
      reply := HttpError(500, asked.lastErr);
      assert ApplyAll(t0, [], now, codec).0 == t0;
    } else {
      var rec := RecordPlan(t0, user, level, question, asked.result, parts, codec);
      var _ := db.Apply(rec.1, now, codec);
      reply := rec.0;
    }
  }

  /** The plan, by the model's verdict. */
  lemma AnswerPlanSplit(t: Tables, user: string, level: string, question: string, parts: seq<string>,
                        hasKeys: bool, outcomes: seq<Outcome>, codec: Codec)
    requires |outcomes| == 2
    ensures Ask(hasKeys, outcomes).NoVerdict? ==> (AnswerPlan(t, user, level, question, parts, hasKeys, outcomes, codec)
      == (HttpError(500, Ask(hasKeys, outcomes).lastErr), [], Ask(hasKeys, outcomes).attempts))
    ensures Ask(hasKeys, outcomes).Judged? ==> (AnswerPlan(t, user, level, question, parts, hasKeys, outcomes, codec)
      == (RecordPlan(t, user, level, question, Ask(hasKeys, outcomes).result, parts, codec).0,
          RecordPlan(t, user, level, question, Ask(hasKeys, outcomes).result, parts, codec).1,
          Ask(hasKeys, outcomes).attempts))
  {
  }

  /** `AILeadHandler`. `botFile` is the bot file's text as first read, `now` the clock the
      message rows are stamped with. The prompt it sends holds the level's history,
      oldest first. */
  method AILead(db: Database, ring: KeyRing, env: map<string, string>, botFile: Option<string>, now: int,
                session: string, requester: Option<string>, verb: string, payload: map<string, string>,
                walk: string, outcomes: seq<Outcome>, codec: Codec)
    returns (reply: LeadReply, prompt: string, ghost h: seq<Entry>, ghost ks: seq<string>)
    requires ring.Valid() && |outcomes| == 2
    modifies db, ring
    ensures ring.Valid()
    ensures var p := LeadPlan(old(db.tables), session, requester, verb, payload, walk, |Loaded(old(ring.keys), env)| > 0, outcomes, codec);
      reply == p.0 && db.tables == ApplyAll(old(db.tables), p.1, now, codec).0 && ring.idx == old(ring.idx) + p.2
    ensures var g := LeadGate(old(db.tables), session, requester, verb, payload, walk, codec);
      ring.keys == (if g.Proceed? then Loaded(old(ring.keys), env) else old(ring.keys))
    ensures var g := LeadGate(old(db.tables), session, requester, verb, payload, walk, codec);
      g.Proceed? ==> (Enumerates(g.msgs, ks) && SortedBy(h, TsLess)
        && multiset(h) == multiset(HistoryIn(g.msgs, ks, g.level, Lower(requester.value), codec))
        && prompt == Prompt(BotPrefix(botFile, codec), walk, Param(payload, "question"), HistoryText(h, Lower(requester.value)), codec))
  {
    h, ks := [], [];
    var g := LeadGate(db.tables, session, requester, verb, payload, walk, codec);
    if g.Stop? {
      assert ApplyAll(db.tables, [], now, codec).0 == db.tables;
      return g.reply, "", h, ks;
    }
    var user := Lower(requester.value);
    prompt, h, ks := BuildPrompt(g.msgs, g.level, user, walk, Param(payload, "question"), BotPrefix(botFile, codec), codec);
    reply := Respond(db, ring, env, now, user, g.level, g.question, WalkParts(walk, codec).0, outcomes, codec);
  }

  /** A lead with the switch off is refused and writes nothing. */
  lemma SwitchedOffRefuses(t: Tables, session: string, requester: Option<string>, payload: map<string, string>,
                           walk: string, hasKeys: bool, outcomes: seq<Outcome>, codec: Codec)
    requires |outcomes| == 2 && session != "" && requester.Some? && requester.value != ""
    requires GetT(t, "settings", "ai_leads", codec) == Some("0") || GetT(t, "settings", "ai_leads", codec) == Some("false")
    ensures LeadPlan(t, session, requester, "POST", payload, walk, hasKeys, outcomes, codec) == (HttpError(403, "ai leads disabled"), [], 0)
  {
    OffValues(GetT(t, "settings", "ai_leads", codec).value);
  }

  lemma OffValues(v: string)
    requires v == "0" || v == "false"
    ensures LeadsOff(v)
  {
    assert Lower(v) == v;
    TrimNoop(v, GoSpace);
  }

  /** The progress a confirmed lead writes is what the progress handlers read back: the
      advanced entry for the level's type, the other entries as they were. */
  lemma AdvanceStored(a: Levels.Account, typ: string, p: Users.Pair, codec: Codec)
    requires !a.NilMap?
    ensures Users.Stored(Levels.Record(Levels.Fields(a)["progress" := Users.ProgressJson(Users.Stored(a)[typ := p])]))
      == Users.Stored(a)[typ := p]
  {
    Users.PairsRoundTrip(Users.Stored(a)[typ := p]);
  }
}
