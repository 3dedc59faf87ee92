/** Sign-up and log-in (handlers/auth.go). A six-digit one-time code is derived from
    the address and a salt, mailed by `send_otp` and checked at sign-up; passwords
    are stored as the hex SHA-256 digest. SHA-256 itself is a parameter `sha`. */
module Auth {
  import opened Basics
  import opened Json
  import opened Text
  import opened Store

  type Byte = x: int | 0 <= x < 256

  /** SHA-256 over the UTF-8 bytes of a string. */
  type Digest = string -> seq<Byte>

  // ---------------------------------------------------------------- isValidEmail

  predicate LocalChar(c: char) {
    'a' <= c <= 'z' || 'A' <= c <= 'Z' || '0' <= c <= '9' || c in "._%+-"
  }

  predicate DomainChar(c: char) {
    'a' <= c <= 'z' || 'A' <= c <= 'Z' || '0' <= c <= '9' || c == '.' || c == '-'
  }

  predicate Letter(c: char) {
    'a' <= c <= 'z' || 'A' <= c <= 'Z'
  }

  /** The pattern `^[a-zA-Z0-9._%+-]+@[a-zA-Z0-9.-]+\.[a-zA-Z]{2,}$` matched with its
      `@` at `at` and its escaped dot at `dot`. */
  predicate MatchesAt(s: string, at: int, dot: int) {
    0 < at && at + 1 < dot && dot + 2 < |s| && s[at] == '@' && s[dot] == '.'
    && (forall k :: 0 <= k < at ==> LocalChar(s[k]))
    && (forall k :: at < k < dot ==> DomainChar(s[k]))
    && (forall k :: dot < k < |s| ==> Letter(s[k]))
  }

  /** The regular expression matches `s` (some placement of `@` and the dot). */
  ghost predicate Matches(s: string) {
    exists at, dot :: MatchesAt(s, at, dot)
  }

  /** The last index of `c` in `s`, or -1. */
  function LastIndexOf(s: string, c: char): (i: int)
    ensures -1 <= i < |s|
    ensures i == -1 <==> c !in s
    ensures i >= 0 ==> s[i] == c
    ensures forall k :: i < k < |s| ==> s[k] != c
  {
    if |s| == 0 then -1
    else if s[|s| - 1] == c then |s| - 1
    else
      assert s == s[..|s| - 1] + [s[|s| - 1]];
      LastIndexOf(s[..|s| - 1], c)
  }

  /** `isValidEmail`, decided without search: the `@` can only be the first one (no
      other character class admits it) and the dot only the last one (the top-level
      domain is letters). */
  predicate IsValidEmail(s: string) {
    MatchesAt(s, IndexOf(s, '@'), LastIndexOf(s, '.'))
  }

  /** The deterministic check accepts exactly the addresses the pattern matches. */
  lemma ValidEmailMatches(s: string)
    ensures IsValidEmail(s) <==> Matches(s)
  {
    if Matches(s) {
      var at, dot :| MatchesAt(s, at, dot);
      var i := IndexOf(s, '@');
      assert s[at] in s;
      assert forall k :: 0 <= k < i ==> s[k] != '@' by {
        forall k | 0 <= k < i ensures s[k] != '@' {
          assert s[..i][k] == s[k];
        }
      }
      assert forall k :: 0 <= k < at ==> s[k] != '@';
      var j := LastIndexOf(s, '.');
      assert forall k :: dot < k < |s| ==> s[k] != '.';
    }
  }

  // ---------------------------------------------------------------- getOTP

  /** `AUTH_SALT`, or `default_salt` when it is unset or empty. */
  function Salt(env: string): (r: string)
    ensures r != "" && (env != "" ==> r == env)
  {
    if env == "" then "default_salt" else env
  }

  /** A byte string read as a big-endian unsigned number. */
  function BigEndian(h: seq<Byte>): nat {
    if |h| == 0 then 0 else BigEndian(h[..|h| - 1]) * 256 + h[|h| - 1]
  }

  /** The int64 the code is derived from: the first eight digest bytes, big-endian,
      read as two's complement. */
  function Seed(email: string, saltEnv: string, sha: Digest): int
    requires forall s :: |sha(s)| == 32
  {
    WrapInt64(BigEndian(sha(email + Salt(saltEnv))[..8]))
  }

  lemma ModShift(x: int, k: int)
    ensures (x + k * TwoTo64) % TwoTo64 == x % TwoTo64
  {
    var q, r := x / TwoTo64, x % TwoTo64;
    assert x + k * TwoTo64 == (q + k) * TwoTo64 + r;
  }

  /** Numbers that agree modulo 2^64 wrap to the same int64. */
  lemma WrapCongruent(a: int, b: int)
    requires (a - b) % TwoTo64 == 0
    ensures WrapInt64(a) == WrapInt64(b)
  {
    var k := (a - b) / TwoTo64;
    assert a + TwoTo63 == (b + TwoTo63) + k * TwoTo64;
    ModShift(b + TwoTo63, k);
  }

  /** One step of the loop, `n = (n << 8) + int64(h[i])` with both operations wrapping,
      agrees with wrapping the exact value once. */
  lemma WrapShift(x: int, b: Byte)
    ensures WrapInt64(WrapInt64(WrapInt64(x) * 256) + b) == WrapInt64(x * 256 + b)
  {
    var w := WrapInt64(x);
    var i := (WrapInt64(w * 256) - w * 256) / TwoTo64;
    var j := (w - x) / TwoTo64;
    assert (WrapInt64(w * 256) + b) - (x * 256 + b) == (i + 256 * j) * TwoTo64;
    ModShift(0, i + 256 * j);
    WrapCongruent(WrapInt64(w * 256) + b, x * 256 + b);
  }

  /** The loop of `getOTP` over the first eight digest bytes. */
  method FoldDigest(h: seq<Byte>) returns (n: int)
    requires |h| >= 8
    ensures n == WrapInt64(BigEndian(h[..8]))
  {
    n := 0;
    for i := 0 to 8
      invariant n == WrapInt64(BigEndian(h[..i]))
    {
      assert h[..i + 1][..i] == h[..i];
      WrapShift(BigEndian(h[..i]), h[i]);
      n := WrapInt64(WrapInt64(n * 256) + h[i]);
    }
  }

  /** `if n < 0 { n = -n }; n % 1000000` in int64 as written: negating the smallest
      int64 overflows back to itself, and Go's `%` keeps the sign. */
  function AsWrittenOtp(n: int): int
    requires InInt64(n)
  {
    GoMod(if n < 0 then WrapInt64(-n) else n, 1000000)
  }

  /** The intended code: the absolute value modulo a million. */
  function Otp(n: int): (r: int)
    ensures 0 <= r < 1000000
  {
    (if n < 0 then -n else n) % 1000000
  }

  /** `getOTP` as written. */
  method GetOtp(email: string, saltEnv: string, sha: Digest) returns (otp: int)
    requires forall s :: |sha(s)| == 32
    ensures Seed(email, saltEnv, sha) != -TwoTo63 ==> otp == Otp(Seed(email, saltEnv, sha))
    ensures Seed(email, saltEnv, sha) == -TwoTo63 ==> otp == -775808
  {
    var h := sha(email + Salt(saltEnv));
    var n := FoldDigest(h);
    if n < 0 {
      n := WrapInt64(-n);
    }
    otp := GoMod(n, 1000000);
    if n == -TwoTo63 {
      AsWrittenOverflow();
    }
  }

  /** The as-written code agrees with the intended one except on the smallest int64. */
  lemma OtpAgrees(n: int)
    requires InInt64(n) && n != -TwoTo63
    ensures AsWrittenOtp(n) == Otp(n)
  {
  }

  /** The smallest int64 gives a negative code, which prints as seven characters. */
  lemma AsWrittenOverflow()
    ensures AsWrittenOtp(-TwoTo63) == -775808
    ensures Pad6(-775808) == "-775808"
  {
    assert GoDiv(-TwoTo63, 1000000) == -9223372036854;
    assert NatDigits(775808) == "775808" by {
      assert NatDigits(7) == "7";
      assert NatDigits(77) == "77";
      assert NatDigits(775) == "775";
      assert NatDigits(7758) == "7758";
      assert NatDigits(77580) == "77580";
    }
  }

  /** A digest whose first eight bytes are `80 00 00 00 00 00 00 00` seeds the smallest
      int64. */
  lemma SmallestSeed(h: seq<Byte>)
    requires |h| >= 8 && h[..8] == [128, 0, 0, 0, 0, 0, 0, 0]
    ensures WrapInt64(BigEndian(h[..8])) == -TwoTo63
  {
    var p: seq<Byte> := [128, 0, 0, 0, 0, 0, 0, 0];
    assert BigEndian(p[..1]) == 128 by { assert p[..1][..0] == []; }
    assert BigEndian(p[..2]) == 0x8000 by { assert p[..2][..1] == p[..1]; }
    assert BigEndian(p[..3]) == 0x80_0000 by { assert p[..3][..2] == p[..2]; }
    assert BigEndian(p[..4]) == 0x8000_0000 by { assert p[..4][..3] == p[..3]; }
    assert BigEndian(p[..5]) == 0x80_0000_0000 by { assert p[..5][..4] == p[..4]; }
    assert BigEndian(p[..6]) == 0x8000_0000_0000 by { assert p[..6][..5] == p[..5]; }
    assert BigEndian(p[..7]) == 0x80_0000_0000_0000 by { assert p[..7][..6] == p[..6]; }
    assert BigEndian(p) == TwoTo63 by { assert p[..8][..7] == p[..7] && p[..8] == p; }
  }

  // ---------------------------------------------------------------- fmt.Sprintf("%06d")

  function Zeros(k: nat): (r: string)
    ensures |r| == k && AllDigits(r)
  {
    seq(k, _ => '0')
  }

  function ZeroPad(s: string, w: nat): (r: string)
    ensures |r| >= w && |r| >= |s|
  {
    if |s| < w then Zeros(w - |s|) + s else s
  }

  /** `fmt.Sprintf("%06d", n)`: zero-padded to six characters, the sign counting. */
  function Pad6(n: int): (r: string)
    ensures |r| >= 6
  {
    if n < 0 then "-" + ZeroPad(NatDigits(-n), 5) else ZeroPad(NatDigits(n), 6)
  }

  function Pow10(k: nat): nat {
    if k == 0 then 1 else 10 * Pow10(k - 1)
  }

  lemma {:induction false} DigitsLength(n: nat, k: nat)
    requires k >= 1 && n < Pow10(k)
    ensures |NatDigits(n)| <= k
  {
    if n >= 10 {
      DigitsLength(n / 10, k - 1);
    }
  }

  /** Leading zeros do not change a decimal value. */
  lemma {:induction false} LeadingZeros(z: nat, s: string)
    requires AllDigits(s)
    ensures AllDigits(Zeros(z) + s) && DigitsValue(Zeros(z) + s) == DigitsValue(s)
  {
    if |s| == 0 {
      assert Zeros(z) + s == Zeros(z);
      ZerosValue(z);
    } else {
      var front := s[..|s| - 1];
      assert (Zeros(z) + s)[..|Zeros(z) + s| - 1] == Zeros(z) + front;
      LeadingZeros(z, front);
    }
  }

  lemma {:induction false} ZerosValue(z: nat)
    ensures DigitsValue(Zeros(z)) == 0
  {
    if z > 0 {
      assert Zeros(z)[..z - 1] == Zeros(z - 1);
      ZerosValue(z - 1);
    }
  }

  /** A code in range prints as exactly six digits that read back as the code. */
  lemma Pad6Value(n: int)
    requires 0 <= n < 1000000
    ensures |Pad6(n)| == 6 && AllDigits(Pad6(n)) && DigitsValue(Pad6(n)) == n
  {
    assert Pow10(6) == 1000000;
    DigitsLength(n, 6);
    DigitsValueOfNat(n);
    if |NatDigits(n)| < 6 {
      LeadingZeros(6 - |NatDigits(n)|, NatDigits(n));
    }
  }

  /** The intended code: six digits reading back as `Otp` of the seed. */
  function Code(email: string, saltEnv: string, sha: Digest): (r: string)
    requires forall s :: |sha(s)| == 32
    ensures |r| == 6 && AllDigits(r) && DigitsValue(r) == Otp(Seed(email, saltEnv, sha))
  {
    var otp := Otp(Seed(email, saltEnv, sha));
    Pad6Value(otp);
    Pad6(otp)
  }

  /** `fmt.Sprintf("%06d", getOTP(email))`, the code the handlers mail and expect: the
      intended code for every seed but -2^63, which gives `-775808`. */
  function AsWrittenCode(email: string, saltEnv: string, sha: Digest): (r: string)
    requires forall s :: |sha(s)| == 32
    ensures Seed(email, saltEnv, sha) != -TwoTo63 ==> r == Code(email, saltEnv, sha)
    ensures Seed(email, saltEnv, sha) == -TwoTo63 ==> r == "-775808"
  {
    var n := Seed(email, saltEnv, sha);
    if n == -TwoTo63 then
      AsWrittenOverflow();
      Pad6(AsWrittenOtp(n))
    else
      OtpAgrees(n);
      Pad6(AsWrittenOtp(n))
  }

  // ---------------------------------------------------------------- the mailed digits

  function Concat(ds: seq<string>): string {
    if |ds| == 0 then "" else Concat(ds[..|ds| - 1]) + ds[|ds| - 1]
  }

  /** The loop `digits[i] = string(s[i])` that fills the six template slots. */
  method MailDigits(s: string) returns (digits: seq<string>)
    requires |s| >= 6
    ensures |digits| == 6 && forall i :: 0 <= i < 6 ==> digits[i] == [s[i]]
    ensures Concat(digits) == s[..6]
  {
    digits := [];
    for i := 0 to 6
      invariant |digits| == i && forall k :: 0 <= k < i ==> digits[k] == [s[k]]
      invariant Concat(digits) == s[..i]
    {
      assert (digits + [[s[i]]])[..i] == digits;
      assert s[..i + 1] == s[..i] + [s[i]];
      digits := digits + [[s[i]]];
    }
  }

  /** The six mailed digits of the as-written code of the smallest seed are not the code
      the sign-up compares against. */
  lemma MailedOverflow()
    ensures Pad6(AsWrittenOtp(-TwoTo63))[..6] == "-77580"
    ensures Pad6(AsWrittenOtp(-TwoTo63))[..6] != Pad6(AsWrittenOtp(-TwoTo63))
  {
    AsWrittenOverflow();
  }

  // ---------------------------------------------------------------- hashHex

  function HexDigit(d: nat): (c: char)
    requires d < 16
  {
    if d < 10 then ('0' as int + d) as char else ('a' as int + d - 10) as char
  }

  function Hex(bs: seq<Byte>): (r: string)
    ensures |r| == 2 * |bs|
  {
    if |bs| == 0 then ""
    else Hex(bs[..|bs| - 1]) + [HexDigit(bs[|bs| - 1] / 16), HexDigit(bs[|bs| - 1] % 16)]
  }

  /** `hashHex`: the lower-case hex SHA-256 digest, 64 characters. */
  function HashHex(sha: Digest, s: string): (r: string)
    requires forall s :: |sha(s)| == 32
    ensures |r| == 64
  {
    Hex(sha(s))
  }

  /** Go's `len` of a string: its UTF-8 byte count. */
  function Utf8Len(s: string): nat {
    if |s| == 0 then 0
    else
      var c := s[|s| - 1] as int;
      Utf8Len(s[..|s| - 1]) + (if c < 0x80 then 1 else if c < 0x800 then 2 else if c < 0x10000 then 3 else 4)
  }

  // ---------------------------------------------------------------- send_otp

  datatype Reply = Failure(code: int, message: string) | OtpSent(mailed: string) | Success

  /** Decoding a body into `map[string]string`: `null` gives the nil map; an object
      whose members are all strings or `null` (stored as "") decodes; anything else
      is an error. */
  function StringPayload(body: Option<Json>): (r: Option<map<string, string>>)
    ensures body == Some(JNull) ==> r == Some(map[])
    ensures r.Some? ==> body.Some? && (body.value.JNull? || body.value.JObj?)
    ensures body.Some? && body.value.JObj? ==>
      (r.Some? <==> forall k :: k in body.value.fields ==> body.value.fields[k].JStr? || body.value.fields[k].JNull?)
    ensures r.Some? && body.value.JObj? ==> (r.value.Keys == body.value.fields.Keys
      && forall k :: k in r.value ==> (body.value.fields[k] == JStr(r.value[k]) || (body.value.fields[k] == JNull && r.value[k] == "")))
  {
    match body
    case Some(JNull) => Some(map[])
    case Some(JObj(m)) =>
      if forall k :: k in m ==> m[k].JStr? || m[k].JNull? then
        Some(map k | k in m :: if m[k].JStr? then m[k].s else "")
      else None
    case _ => None
  }

  /** The address a handler works with: lower-cased, then trimmed. */
  function Address(raw: string): string {
    TrimSpace(Lower(raw))
  }

  /** What `send_otp` stores for a sign-up that gives a name. */
  function PendingRecord(p: map<string, string>, email: string): Json {
    JObj(map["name" := JStr(Param(p, "name")), "phonenumber" := JStr(Param(p, "phonenumber")),
             "email" := JStr(email), "password" := JStr(Param(p, "password"))])
  }

  /** The payload: the decoded POST body, or the query's `email` for any other verb. */
  function OtpPayload(verb: string, body: Option<Json>, query: map<string, string>): Option<map<string, string>> {
    if verb == "POST" then StringPayload(body) else Some(map["email" := Param(query, "email")])
  }

  /** Whether the address already belongs to an account or a verified sign-up. */
  predicate Taken(t: Tables, email: string, codec: Codec) {
    GetT(t, "registration", email, codec).Some? || GetT(t, "emails", email, codec).Some?
  }

  /** `send_otp`: the reply (carrying the code to mail) and the writes. */
  function OtpPlan(t: Tables, verb: string, body: Option<Json>, query: map<string, string>,
                   saltEnv: string, sha: Digest, codec: Codec): (r: (Reply, seq<Op>))
    requires forall s :: |sha(s)| == 32
    ensures OtpPayload(verb, body, query).None? ==> r == (Failure(400, "invalid payload"), [])
    ensures r.0.OtpSent? <==> (OtpPayload(verb, body, query).Some?
      && IsValidEmail(Address(Param(OtpPayload(verb, body, query).value, "email")))
      && !Taken(t, Address(Param(OtpPayload(verb, body, query).value, "email")), codec))
    ensures r.0.OtpSent? ==> var p := OtpPayload(verb, body, query).value;
      var email := Address(Param(p, "email"));
      r.0.mailed == AsWrittenCode(email, saltEnv, sha)
      && r.1 == (if "name" in p then [Put("pending_signup", email, codec.encode(PendingRecord(p, email)))] else [])
    ensures !r.0.OtpSent? ==> r.1 == []
  {
    match OtpPayload(verb, body, query)
    case None => (Failure(400, "invalid payload"), [])
    case Some(p) =>
      var email := Address(Param(p, "email"));
      if !IsValidEmail(email) then (Failure(400, "invalid email"), [])
      else if GetT(t, "registration", email, codec).Some? then (Failure(409, "email already exists as a user"), [])
      else if GetT(t, "emails", email, codec).Some? then (Failure(409, "email already exists as a user"), [])
      else
        var ops := if "name" in p then [Put("pending_signup", email, codec.encode(PendingRecord(p, email)))] else [];
        (OtpSent(AsWrittenCode(email, saltEnv, sha)), ops)
  }

  /** `SendOtpHandler`. With the mail template available the mail shows the six
      characters `digits[0..5]`, otherwise the whole code. */
  method SendOtp(db: Database, verb: string, body: Option<Json>, query: map<string, string>,
                 saltEnv: string, sha: Digest, template: bool, now: int, codec: Codec) returns (reply: Reply)
    requires forall s :: |sha(s)| == 32
    modifies db
    ensures var p := OtpPlan(old(db.tables), verb, body, query, saltEnv, sha, codec);
      db.tables == ApplyAll(old(db.tables), p.1, now, codec).0
      && reply == (if p.0.OtpSent? && template then OtpSent(p.0.mailed[..6]) else p.0)
  {
    var p := OtpPlan(db.tables, verb, body, query, saltEnv, sha, codec);
    reply := p.0;
    if reply.OtpSent? && template {
      var digits := MailDigits(reply.mailed);
      reply := OtpSent(Concat(digits));
    }
    var _ := db.Apply(p.1, now, codec);
  }

  /** The six characters the mail template shows are the whole code the sign-up
      expects, and that code is the intended one, exactly when the seed is not -2^63. */
  lemma MailedIsCode(t: Tables, verb: string, body: Option<Json>, query: map<string, string>,
                     saltEnv: string, sha: Digest, codec: Codec)
    requires forall s :: |sha(s)| == 32
    requires OtpPlan(t, verb, body, query, saltEnv, sha, codec).0.OtpSent?
    ensures var m := OtpPlan(t, verb, body, query, saltEnv, sha, codec).0.mailed;
      var email := Address(Param(OtpPayload(verb, body, query).value, "email"));
      Seed(email, saltEnv, sha) != -TwoTo63 ==> m[..6] == m && m == Code(email, saltEnv, sha)
    ensures var m := OtpPlan(t, verb, body, query, saltEnv, sha, codec).0.mailed;
      var email := Address(Param(OtpPayload(verb, body, query).value, "email"));
      Seed(email, saltEnv, sha) == -TwoTo63 ==> m[..6] != m
  {
    MailedOverflow();
  }

  // ---------------------------------------------------------------- api/auth

  /** The pending sign-up of `email`, as `json.Unmarshal` into `map[string]string` reads
      it with its error ignored: nil unless the text holds an object. */
  function Pending(t: Tables, email: string, codec: Codec): map<string, string> {
    match GetT(t, "pending_signup", email, codec)
    case Some(v) => StringEntries(GoMap(codec.decode(v)))
    case None => map[]
  }

  /** Name, phone number and password: from the query, each missing one from the
      pending sign-up (consulted only when one is missing). */
  function Filled(t: Tables, q: map<string, string>, codec: Codec): (r: (string, string, string))
    ensures Param(q, "name") != "" ==> r.0 == Param(q, "name")
    ensures Param(q, "phonenumber") != "" ==> r.1 == Param(q, "phonenumber")
    ensures Param(q, "password") != "" ==> r.2 == Param(q, "password")
  {
    var name, ph, pw := Param(q, "name"), Param(q, "phonenumber"), Param(q, "password");
    if name != "" && pw != "" && ph != "" then (name, ph, pw)
    else
      var pending := Pending(t, Address(Param(q, "email")), codec);
      (if name == "" then Param(pending, "name") else name,
       if ph == "" then Param(pending, "phonenumber") else ph,
       if pw == "" then Param(pending, "password") else pw)
  }

  function AccountRecord(email: string, f: (string, string, string), hash: string, now: int): Json {
    JObj(map["email" := JStr(email), "name" := JStr(f.0), "phonenumber" := JStr(f.1),
             "password" := JStr(hash), "created_at" := JNum(now as real)])
  }

  function BoardRecord(email: string, name: string, now: int): Json {
    JObj(map["email" := JStr(email), "time" := JNum(now as real), "points" := JNum(0.0), "name" := JStr(name)])
  }

  /** Every condition a sign-up must meet. */
  predicate SignupAccepted(t: Tables, q: map<string, string>, saltEnv: string, sha: Digest, codec: Codec)
    requires forall s :: |sha(s)| == 32
  {
    var email := Address(Param(q, "email"));
    var f := Filled(t, q, codec);
    email != "" && Param(q, "otp") != "" && f.0 != "" && f.1 != "" && f.2 != ""
    && IsValidEmail(email) && Utf8Len(f.1) == 10
    && Param(q, "otp") == AsWrittenCode(email, saltEnv, sha)
    && GetT(t, "registration", email, codec).None?
  }

  /** `method=signup`, up to the clean-up of pending sign-ups: the reply and the writes
      (account, verified address, leaderboard entry). */
  function SignupPlan(t: Tables, q: map<string, string>, now: int, saltEnv: string, sha: Digest, codec: Codec)
    : (r: (Reply, seq<Op>))
    requires forall s :: |sha(s)| == 32
    ensures r.0 == Success <==> SignupAccepted(t, q, saltEnv, sha, codec)
    ensures r.0 == Success ==> var email := Address(Param(q, "email"));
      var f := Filled(t, q, codec);
      r.1 == [Put("registration", email, codec.encode(AccountRecord(email, f, HashHex(sha, f.2), now))),
              Put("emails", email, Itoa(now)),
              Put("leaderboard", email, codec.encode(BoardRecord(email, f.0, now)))]
    ensures r.0 != Success ==> r.1 == []
  {
    var email := Address(Param(q, "email"));
    var otp := Param(q, "otp");
    if email == "" || otp == "" then (Failure(400, "missing fields"), [])
    else
      var f := Filled(t, q, codec);
      if f.0 == "" || f.2 == "" || f.1 == "" then (Failure(400, "missing fields"), [])
      else if !IsValidEmail(email) then (Failure(400, "invalid email"), [])
      else if Utf8Len(f.1) != 10 then (Failure(400, "invalid phone"), [])
      else if otp != AsWrittenCode(email, saltEnv, sha) then (Failure(401, "incorrect otp"), [])
      else if GetT(t, "registration", email, codec).Some? then (Failure(409, "account exists"), [])
      else
        (Success, [Put("registration", email, codec.encode(AccountRecord(email, f, HashHex(sha, f.2), now))),
                   Put("emails", email, Itoa(now)),
                   Put("leaderboard", email, codec.encode(BoardRecord(email, f.0, now)))])
  }

  /** The pending keys the clean-up deletes: those containing the address. */
  function Stale(ks: seq<string>, email: string): (r: seq<string>)
    ensures forall k :: k in r <==> k in ks && (k == email || Contains(k, email))
  {
    if |ks| == 0 then []
    else
      var k := ks[|ks| - 1];
      Stale(ks[..|ks| - 1], email) + (if k == email || Contains(k, email) then [k] else [])
  }

  function Removals(ks: seq<string>): (r: seq<Op>)
    ensures |r| == |ks| && forall i :: 0 <= i < |ks| ==> r[i] == Remove("pending_signup", ks[i])
  {
    seq(|ks|, i requires 0 <= i < |ks| => Remove("pending_signup", ks[i]))
  }

  /** Deleting pending sign-ups one by one removes exactly those keys and touches no
      other table. */
  lemma {:induction false} ApplyRemovals(t: Tables, ks: seq<string>, now: int, codec: Codec)
    ensures ApplyAll(t, Removals(ks), now, codec).0 == t.(pendingSignups := t.pendingSignups - set k | k in ks)
  {
    if |ks| > 0 {
      var front := ks[..|ks| - 1];
      var last := ks[|ks| - 1];
      assert Removals(ks) == Removals(front) + [Remove("pending_signup", last)];
      ApplySnoc(t, Removals(front), Remove("pending_signup", last), now, codec);
      ApplyRemovals(t, front, now, codec);
      DeletePending(ApplyAll(t, Removals(front), now, codec).0, last, codec);
      assert (set k | k in ks) == (set k | k in front) + {last};
    } else {
      assert (set k: string | k in ks) == {};
    }
  }

  lemma DeletePending(t: Tables, key: string, codec: Codec)
    ensures DeleteT(t, "pending_signup", key, codec).0 == t.(pendingSignups := t.pendingSignups - {key})
  {
    assert "pending_signup"[0] != "messages/"[0];
  }

  /** The `for k := range pend` loop, collecting the keys to delete. */
  method StaleKeys(pend: map<string, string>, email: string) returns (stale: seq<string>, ghost ks: seq<string>)
    ensures Enumerates(pend, ks) && stale == Stale(ks, email)
  {
    stale := [];
    ks := [];
    var rest := pend.Keys;
    while rest != {}
      invariant Visiting(pend, ks, rest)
      invariant stale == Stale(ks, email)
      decreases rest
    {
      var k :| k in rest;
      VisitStep(pend, ks, rest, k);
      if k == email || Contains(k, email) {
        stale := stale + [k];
      }
      ks := ks + [k];
      rest := rest - {k};
    }
    VisitDone(pend, ks);
  }

  /** The stored password digest: "" when the record does not decode to an object
      with a string `password`. */
  function StoredPassword(v: string, codec: Codec): string {
    match GoMap(codec.decode(v))
    case Some(m) => (match StrField(m, "password") case Some(s) => s case None => "")
    case None => ""
  }

  /** `method=login`. */
  function LoginPlan(t: Tables, q: map<string, string>, sha: Digest, codec: Codec): (r: Reply)
    requires forall s :: |sha(s)| == 32
    ensures r == Success <==> (Address(Param(q, "email")) != "" && Param(q, "password") != ""
      && GetT(t, "registration", Address(Param(q, "email")), codec).Some?
      && StoredPassword(GetT(t, "registration", Address(Param(q, "email")), codec).value, codec) == HashHex(sha, Param(q, "password")))
  {
    var email := Address(Param(q, "email"));
    var password := Param(q, "password");
    if email == "" || password == "" then Failure(400, "missing fields")
    else
      match GetT(t, "registration", email, codec)
      case None => Failure(401, "no account")
      case Some(v) =>
        if StoredPassword(v, codec) != HashHex(sha, password) then Failure(401, "incorrect password") else Success
  }

  /** `ApiAuthHandler`: `signup`, `login`, or an unknown method. A successful sign-up
      also deletes every pending sign-up whose key contains the address. */
  method ApiAuth(db: Database, q: map<string, string>, now: int, saltEnv: string, sha: Digest, codec: Codec)
    returns (reply: Reply, ghost ks: seq<string>)
    requires forall s :: |sha(s)| == 32
    modifies db
    ensures Param(q, "method") == "signup" ==> var p := SignupPlan(old(db.tables), q, now, saltEnv, sha, codec);
      var written := ApplyAll(old(db.tables), p.1, now, codec).0;
      reply == p.0
      && (p.0 == Success ==> (Enumerates(written.pendingSignups, ks)
          && db.tables == ApplyAll(written, Removals(Stale(ks, Address(Param(q, "email")))), now, codec).0))
      && (p.0 != Success ==> db.tables == old(db.tables))
    ensures Param(q, "method") == "login" ==> reply == LoginPlan(old(db.tables), q, sha, codec) && db.tables == old(db.tables)
    ensures Param(q, "method") !in {"signup", "login"} ==> reply == Failure(400, "unknown method") && db.tables == old(db.tables)
  {
    ks := [];
    var m := Param(q, "method");
    if m == "signup" {
      var p := SignupPlan(db.tables, q, now, saltEnv, sha, codec);
      var _ := db.Apply(p.1, now, codec);
      reply := p.0;
      if reply == Success {
        var pend := db.GetAll("pending_signup", codec);
        var stale;
        stale, ks := StaleKeys(pend.value, Address(Param(q, "email")));
        var _ := db.Apply(Removals(stale), now, codec);
      }
      return;
    }
    if m == "login" {
      return LoginPlan(db.tables, q, sha, codec), ks;
    }
    reply := Failure(400, "unknown method");
  }

  // ---------------------------------------------------------------- properties

  lemma ApplyOne(t: Tables, a: Op, now: int, codec: Codec)
    ensures ApplyAll(t, [a], now, codec).0 == Perform(t, a, now, codec).0
  {
    assert [a][..0] == [];
  }

  lemma ApplyThree(t: Tables, a: Op, b: Op, c: Op, now: int, codec: Codec)
    ensures ApplyAll(t, [a, b, c], now, codec).0
      == Perform(Perform(Perform(t, a, now, codec).0, b, now, codec).0, c, now, codec).0
  {
    assert [a, b, c] == [a, b] + [c] && [a, b] == [a] + [b];
    ApplySnoc(t, [a, b], c, now, codec);
    ApplySnoc(t, [a], b, now, codec);
    ApplyOne(t, a, now, codec);
  }

  lemma PutAccount(t: Tables, key: string, v: string, now: int, codec: Codec)
    ensures Perform(t, Put("registration", key, v), now, codec).0 == t.(users := t.users[key := v])
  {
    assert "registration" !in Named;
  }

  lemma PutEmail(t: Tables, key: string, v: string, now: int, codec: Codec)
    ensures Perform(t, Put("emails", key, v), now, codec).0 == t.(emails := t.emails[key := now])
  {
  }

  lemma PutPending(t: Tables, key: string, v: string, now: int, codec: Codec)
    ensures Perform(t, Put("pending_signup", key, v), now, codec).0 == t.(pendingSignups := t.pendingSignups[key := v])
  {
  }

  lemma PutBoard(t: Tables, key: string, v: string, now: int, codec: Codec, lb: map<string, Json>, user: map<string, Json>)
    requires codec.decode(v) == Some(JObj(lb))
    requires key in t.users && codec.decode(t.users[key]) == Some(JObj(user))
    ensures Perform(t, Put("leaderboard", key, v), now, codec).0 == t.(users := t.users[key := codec.encode(JObj(Merge(user, lb)))])
  {
  }

  /** The three writes of a successful sign-up, one at a time: the account record,
      the verified address, then the leaderboard fields merged into the account. */
  lemma SignupWrites(t: Tables, q: map<string, string>, now: int, saltEnv: string, sha: Digest, codec: Codec)
    requires Lawful(codec) && forall s :: |sha(s)| == 32
    requires SignupPlan(t, q, now, saltEnv, sha, codec).0 == Success
    ensures var email := Address(Param(q, "email"));
      var f := Filled(t, q, codec);
      var w := ApplyAll(t, SignupPlan(t, q, now, saltEnv, sha, codec).1, now, codec).0;
      var account := AccountRecord(email, f, HashHex(sha, f.2), now).fields;
      w.pendingSignups == t.pendingSignups && email in w.emails
      && email in w.users && w.users[email] == codec.encode(JObj(Merge(account, BoardRecord(email, f.0, now).fields)))
  {
    var email := Address(Param(q, "email"));
    var f := Filled(t, q, codec);
    var account := AccountRecord(email, f, HashHex(sha, f.2), now);
    var board := BoardRecord(email, f.0, now);
    var a, b, c := Put("registration", email, codec.encode(account)), Put("emails", email, Itoa(now)),
                   Put("leaderboard", email, codec.encode(board));
    assert SignupPlan(t, q, now, saltEnv, sha, codec).1 == [a, b, c];
    ApplyThree(t, a, b, c, now, codec);
    PutAccount(t, email, codec.encode(account), now, codec);
    var w1 := t.(users := t.users[email := codec.encode(account)]);
    PutEmail(w1, email, Itoa(now), now, codec);
    var w2 := w1.(emails := w1.emails[email := now]);
    assert codec.decode(codec.encode(board)) == Some(board);
    assert codec.decode(w2.users[email]) == Some(account);
    PutBoard(w2, email, codec.encode(board), now, codec, board.fields, account.fields);
  }

  /** An account whose record holds the digest of the password given logs in. */
  lemma LoginAccepts(t: Tables, q: map<string, string>, sha: Digest, codec: Codec, rec: map<string, Json>)
    requires Lawful(codec) && forall s :: |sha(s)| == 32
    requires Address(Param(q, "email")) != "" && Param(q, "password") != ""
    requires Address(Param(q, "email")) in t.users
    requires codec.decode(t.users[Address(Param(q, "email"))]) == Some(JObj(rec))
    requires "password" in rec && rec["password"] == JStr(HashHex(sha, Param(q, "password")))
    ensures LoginPlan(t, q, sha, codec) == Success
  {
    var email := Address(Param(q, "email"));
    assert "registration" !in Named;
    assert GetT(t, "registration", email, codec) == Some(t.users[email]);
  }

  /** After a sign-up the new account logs in with its password, whatever pending
      sign-ups the clean-up then deletes, and `send_otp` refuses the address. */
  lemma SignupThenLogin(t: Tables, q: map<string, string>, now: int, saltEnv: string, sha: Digest, codec: Codec,
                        stale: seq<string>, q2: map<string, string>)
    requires Lawful(codec) && forall s :: |sha(s)| == 32
    requires SignupPlan(t, q, now, saltEnv, sha, codec).0 == Success
    requires Address(Param(q2, "email")) == Address(Param(q, "email")) && Param(q2, "password") == Filled(t, q, codec).2
    ensures var w := ApplyAll(t, SignupPlan(t, q, now, saltEnv, sha, codec).1, now, codec).0;
      var after := ApplyAll(w, Removals(stale), now, codec).0;
      LoginPlan(after, q2, sha, codec) == Success && Taken(after, Address(Param(q, "email")), codec)
  {
    var email := Address(Param(q, "email"));
    var f := Filled(t, q, codec);
    var w := ApplyAll(t, SignupPlan(t, q, now, saltEnv, sha, codec).1, now, codec).0;
    var account := AccountRecord(email, f, HashHex(sha, f.2), now).fields;
    var merged := Merge(account, BoardRecord(email, f.0, now).fields);
    assert email != "" && f.2 != "" by {
      assert SignupAccepted(t, q, saltEnv, sha, codec);
    }
    SignupWrites(t, q, now, saltEnv, sha, codec);
    ApplyRemovals(w, stale, now, codec);
    var after := ApplyAll(w, Removals(stale), now, codec).0;
    assert after.users == w.users && after.emails == w.emails;
    assert codec.decode(codec.encode(JObj(merged))) == Some(JObj(merged));
    MergedPassword(email, f, HashHex(sha, f.2), now);
    LoginAccepts(after, q2, sha, codec, merged);
  }

  /** The record a sign-up stores keeps the password hash through the leaderboard merge. */
  lemma MergedPassword(email: string, f: (string, string, string), hash: string, now: int)
    ensures var merged := Merge(AccountRecord(email, f, hash, now).fields, BoardRecord(email, f.0, now).fields);
      "password" in merged && merged["password"] == JStr(hash)
  {
    assert "password" !in {"name", "points", "time"};
  }

  lemma AccountLookup(t: Tables, email: string, codec: Codec)
    ensures GetT(t, "registration", email, codec) == Lookup(t.users, email)
  {
    assert "registration" !in Named;
  }

  /** The pending sign-up stored by `send_otp` fills a sign-up that names none of the
      three fields. */
  lemma PendingFills(t: Tables, q: map<string, string>, p: map<string, string>, codec: Codec)
    requires Lawful(codec)
    requires Param(q, "name") == "" && Param(q, "phonenumber") == "" && Param(q, "password") == ""
    requires GetT(t, "pending_signup", Address(Param(q, "email")), codec)
      == Some(codec.encode(PendingRecord(p, Address(Param(q, "email")))))
    ensures Filled(t, q, codec) == (Param(p, "name"), Param(p, "phonenumber"), Param(p, "password"))
  {
    var rec := PendingRecord(p, Address(Param(q, "email")));
    assert codec.decode(codec.encode(rec)) == Some(rec);
  }

  /** A POST to `send_otp` that gives name, phone number and password, followed by a
      sign-up that gives only the address and the mailed code, creates the account
      with the pending password. */
  lemma SendThenSignup(t: Tables, body: Option<Json>, query: map<string, string>, saltEnv: string, sha: Digest,
                       now: int, codec: Codec)
    requires Lawful(codec) && forall s :: |sha(s)| == 32
    requires OtpPlan(t, "POST", body, query, saltEnv, sha, codec).0.OtpSent?
    requires var p := StringPayload(body).value;
      "name" in p && Param(p, "name") != "" && Param(p, "password") != "" && Utf8Len(Param(p, "phonenumber")) == 10
    ensures var p := StringPayload(body).value;
      var plan := OtpPlan(t, "POST", body, query, saltEnv, sha, codec);
      var t1 := ApplyAll(t, plan.1, now, codec).0;
      var q := map["method" := "signup", "email" := Param(p, "email"), "otp" := plan.0.mailed];
      SignupPlan(t1, q, now, saltEnv, sha, codec).0 == Success && Filled(t1, q, codec).2 == Param(p, "password")
  {
    var p := StringPayload(body).value;
    var email := Address(Param(p, "email"));
    var plan := OtpPlan(t, "POST", body, query, saltEnv, sha, codec);
    var rec := codec.encode(PendingRecord(p, email));
    assert plan.1 == [Put("pending_signup", email, rec)];
    var t1 := ApplyAll(t, plan.1, now, codec).0;
    assert t1 == t.(pendingSignups := t.pendingSignups[email := rec]) by {
      ApplyOne(t, Put("pending_signup", email, rec), now, codec);
      PutPending(t, email, rec, now, codec);
    }
    var q := map["method" := "signup", "email" := Param(p, "email"), "otp" := plan.0.mailed];
    SignupForm(Param(p, "email"), plan.0.mailed);
    PendingFills(t1, q, p, codec);
    assert Param(p, "phonenumber") != "";
    assert GetT(t1, "registration", email, codec) == GetT(t, "registration", email, codec) by {
      AccountLookup(t1, email, codec);
      AccountLookup(t, email, codec);
    }
    assert SignupAccepted(t1, q, saltEnv, sha, codec);
  }

  /** The sign-up form that gives only an address and a code. */
  lemma SignupForm(email: string, otp: string)
    ensures var q := map["method" := "signup", "email" := email, "otp" := otp];
      Param(q, "email") == email && Param(q, "otp") == otp && Param(q, "method") == "signup"
      && Param(q, "name") == "" && Param(q, "phonenumber") == "" && Param(q, "password") == ""
  {
    var q := map["method" := "signup", "email" := email, "otp" := otp];
    assert "name" !in q.Keys && "phonenumber" !in q.Keys && "password" !in q.Keys;
  }
}
