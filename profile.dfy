/** The attempt-log view of the profile page (components/profile/profile.js): the
    page splits the string the attempt log returns into lines `attempt+type+seconds`,
    keeps the well-formed ones, and filters them by a search term. The string the
    server writes parses back into the attempts it recorded. */
module Profile {
  import opened Basics
  import opened Text
  import AttemptLogs
  import Store
  import Json

  /** One parsed attempt, as `parseLogs` pushes it. */
  datatype Log = Log(time: int, formattedTime: string, typ: string, attempt: string)

  // ---------------------------------------------------------------- parseInt

  /** The length of the run of decimal digits at the start of `s`. */
  function DigitRun(s: string): (n: nat)
    ensures n <= |s|
  {
    if |s| > 0 && IsDigit(s[0]) then 1 + DigitRun(s[1..]) else 0
  }

  lemma {:induction false} DigitRunDigits(s: string)
    ensures AllDigits(s[..DigitRun(s)])
    ensures DigitRun(s) == |s| || !IsDigit(s[DigitRun(s)])
  {
    if |s| > 0 && IsDigit(s[0]) {
      DigitRunDigits(s[1..]);
      assert s[..DigitRun(s)] == [s[0]] + s[1..][..DigitRun(s[1..])];
    }
  }

  /** A run of digits followed by something that is not a digit is read to its end. */
  lemma {:induction false} DigitRunOf(d: string, rest: string)
    requires AllDigits(d) && (rest == [] || !IsDigit(rest[0]))
    ensures DigitRun(d + rest) == |d|
  {
    if |d| > 0 {
      assert (d + rest)[1..] == d[1..] + rest;
      DigitRunOf(d[1..], rest);
    }
  }

  /** JavaScript's `parseInt(s, 10)`: leading white space is skipped, then an optional
      sign and the longest run of decimal digits; no digits gives NaN (None). */
  function ParseIntJs(s: string): (r: Option<int>)
  {
    ParseSign(TrimLeft(s, JsSpace))
  }

  /** `parseInt` after the white space: an optional sign, then the digits. */
  function ParseSign(u: string): Option<int> {
    if |u| > 0 && u[0] == '-' then
      match DigitsPrefix(u[1..])
      case None => None
      case Some(v) => Some(0 - v)
    else if |u| > 0 && u[0] == '+' then DigitsPrefix(u[1..])
    else DigitsPrefix(u)
  }

  /** The value of the run of digits at the start of `b`, or None when there is none. */
  function DigitsPrefix(b: string): Option<int> {
    var n := DigitRun(b);
    DigitRunDigits(b);
    if n == 0 then None else Some(DigitsValue(b[..n]))
  }

  /** Characters that are neither white space nor line terminators. */
  lemma NotJsSpace(c: char)
    requires IsDigit(c) || c == '+' || c == '-'
    ensures c !in JsSpace
  {
  }

  lemma NewlineIsJsSpace()
    ensures '\n' in JsSpace
  {
  }

  /** A formatted integer is read back by `parseInt`, also when something other than a
      digit follows it. */
  lemma ParseIntJsItoa(n: int, rest: string)
    requires rest == [] || !IsDigit(rest[0])
    ensures ParseIntJs(Itoa(n) + rest) == Some(n)
  {
    if n < 0 {
      ParseNegativeItoa(n, rest);
    } else {
      var s := NatDigits(n) + rest;
      assert IsDigit(s[0]) && DigitsPrefix(s) == Some(n) by {
        NatPrefix(n, rest);
      }
      DigitParse(s);
    }
  }

  lemma ParseNegativeItoa(n: int, rest: string)
    requires n < 0 && (rest == [] || !IsDigit(rest[0]))
    ensures ParseIntJs(Itoa(n) + rest) == Some(n)
  {
    var s := Itoa(n) + rest;
    assert s[0] == '-' && DigitsPrefix(s[1..]) == Some(-n) by {
      var d := NatDigits(-n);
      assert Itoa(n) == "-" + d;
      MinusShape(d, rest);
      NatPrefix(-n, rest);
    }
    MinusParse(s);
  }

  /** The digits of `m`, followed by something that is not a digit, read as `m`. */
  lemma NatPrefix(m: nat, rest: string)
    requires rest == [] || !IsDigit(rest[0])
    ensures DigitsPrefix(NatDigits(m) + rest) == Some(m)
  {
    UnsignedOf(NatDigits(m), rest);
    DigitsValueOfNat(m);
  }

  lemma MinusShape(d: string, rest: string)
    ensures ("-" + d + rest)[0] == '-' && ("-" + d + rest)[1..] == d + rest
  {
  }

  /** `parseInt` of text that starts with `-` negates the digits that follow. */
  lemma MinusParse(s: string)
    requires |s| > 0 && s[0] == '-'
    ensures ParseIntJs(s) == ParseSign(s)
    ensures ParseSign(s) == if DigitsPrefix(s[1..]).Some? then Some(0 - DigitsPrefix(s[1..]).value) else None
  {
    NotJsSpace('-');
    assert Leading(s, JsSpace) == 0;
  }

  /** `parseInt` of text that starts with a digit reads the digits. */
  lemma DigitParse(s: string)
    requires |s| > 0 && IsDigit(s[0])
    ensures ParseIntJs(s) == DigitsPrefix(s)
  {
    NotJsSpace(s[0]);
    assert Leading(s, JsSpace) == 0;
  }

  /** A run of digits followed by a non-digit reads as its value. */
  lemma UnsignedOf(d: string, rest: string)
    requires |d| > 0 && AllDigits(d) && (rest == [] || !IsDigit(rest[0]))
    ensures DigitsPrefix(d + rest) == Some(DigitsValue(d))
  {
    DigitRunOf(d, rest);
    assert (d + rest)[..|d|] == d;
  }

  /** Text without digits after the optional sign is NaN. */
  lemma ParseIntJsNaN(s: string)
    requires TrimLeft(s, JsSpace) == s
    requires s == [] || (!IsDigit(s[0]) && s[0] != '-' && s[0] != '+')
    ensures ParseIntJs(s).None?
  {
    assert DigitRun(s) == 0;
  }

  // ---------------------------------------------------------------- parseLogs

  /** `split('\n').filter(entry => entry.length > 0)`. */
  function NonEmpty(pieces: seq<string>): (r: seq<string>)
    ensures forall i :: 0 <= i < |r| ==> r[i] != ""
  {
    if |pieces| == 0 then []
    else
      var front := NonEmpty(pieces[..|pieces| - 1]);
      if pieces[|pieces| - 1] == "" then front else front + [pieces[|pieces| - 1]]
  }

  /** One entry: at least three `+`-separated parts; the last is the time, the one
      before it the type, and the rest, joined back with `+`, the attempt. */
  function ParseEntry(entry: string, format: int -> string): (r: Option<Log>)
  {
    var parts := Split(entry, '+');
    var n := |parts|;
    if n < 3 then None
    else
      match ParseIntJs(parts[n - 1])
      case None => None
      case Some(t) => Some(Log(t, format(t), parts[n - 2], Join(parts[..n - 2], '+')))
  }

  /** The well-formed entries, parsed, in order. */
  function ParseAll(entries: seq<string>, format: int -> string): seq<Log> {
    if |entries| == 0 then []
    else
      var front := ParseAll(entries[..|entries| - 1], format);
      match ParseEntry(entries[|entries| - 1], format)
      case Some(l) => front + [l]
      case None => front
  }

  /** What `parseLogs` leaves in `allLogs` for the logs string `s`. */
  function ParsedLogs(s: string, format: int -> string): seq<Log> {
    var trimmed := JsTrim(s);
    if trimmed == "" then [] else ParseAll(NonEmpty(Split(trimmed, '\n')), format)
  }

  /** The page's state: the parsed logs. `format` stands for `formatTime`. */
  class Page {
    var allLogs: seq<Log>

    constructor()
      ensures allLogs == []
    {
      allLogs := [];
    }

    /** `parseLogs`: reset `allLogs`, then push every well-formed entry. */
    method ParseLogs(logsString: string, format: int -> string)
      modifies this
      ensures allLogs == ParsedLogs(logsString, format)
    {
      allLogs := [];
      var trimmed := JsTrim(logsString);
      if trimmed == "" {
        return;
      }
      var logs := NonEmpty(Split(trimmed, '\n'));
      var i := 0;
      while i < |logs|
        invariant 0 <= i <= |logs|
        invariant allLogs == ParseAll(logs[..i], format)
      {
        assert logs[..i + 1][..i] == logs[..i];
        var entry := ParseEntry(logs[i], format);
        if entry.Some? {
          allLogs := allLogs + [entry.value];
        }
        i := i + 1;
      }
      assert logs[..|logs|] == logs;
    }
  }

  // ---------------------------------------------------------------- applyFilters

  /** Whether a log's selected field starts with the lower-cased search term: `opt1`
      the formatted time, `opt2` the type, `opt3` the attempt, anything else any of them. */
  predicate Matches(l: Log, term: string, option: string) {
    if option == "opt1" then term <= Lower(l.formattedTime)
    else if option == "opt2" then term <= Lower(l.typ)
    else if option == "opt3" then term <= Lower(l.attempt)
    else term <= Lower(l.formattedTime) || term <= Lower(l.typ) || term <= Lower(l.attempt)
  }

  function Filter(logs: seq<Log>, term: string, option: string): seq<Log> {
    if |logs| == 0 then []
    else
      var front := Filter(logs[..|logs| - 1], term, option);
      if Matches(logs[|logs| - 1], term, option) then front + [logs[|logs| - 1]] else front
  }

  /** `applyFilters`: `controls` is the search box's text and the selected option, or
      None when the page lacks them; an empty (trimmed) search shows every log. */
  function ApplyFilters(logs: seq<Log>, controls: Option<(string, string)>): seq<Log> {
    match controls
    case None => logs
    case Some((text, option)) =>
      var term := JsTrim(text);
      if term == "" then logs else Filter(logs, Lower(term), option)
  }

  /** A log is shown exactly when it is in `allLogs` and, with a search term, matches it. */
  lemma {:induction false} FilterMembers(logs: seq<Log>, term: string, option: string, l: Log)
    ensures l in Filter(logs, term, option) <==> l in logs && Matches(l, term, option)
  {
    if |logs| > 0 {
      var front := logs[..|logs| - 1];
      FilterMembers(front, term, option, l);
      assert logs == front + [logs[|logs| - 1]];
    }
  }

  lemma ShownMembers(logs: seq<Log>, text: string, option: string, l: Log)
    ensures l in ApplyFilters(logs, Some((text, option))) <==>
      l in logs && (JsTrim(text) == "" || Matches(l, Lower(JsTrim(text)), option))
  {
    if JsTrim(text) != "" {
      FilterMembers(logs, Lower(JsTrim(text)), option, l);
    }
  }

  /** Filtering keeps the order: it distributes over concatenation. */
  lemma {:induction false} FilterAppend(a: seq<Log>, b: seq<Log>, term: string, option: string)
    ensures Filter(a + b, term, option) == Filter(a, term, option) + Filter(b, term, option)
    decreases |b|
  {
    if |b| > 0 {
      var b' := b[..|b| - 1];
      assert (a + b)[..|a + b| - 1] == a + b';
      FilterAppend(a, b', term, option);
    } else {
      assert a + b == a;
    }
  }

  /** Filtering twice with the same controls shows the same logs. */
  lemma {:induction false} FilterIdempotent(logs: seq<Log>, term: string, option: string)
    ensures Filter(Filter(logs, term, option), term, option) == Filter(logs, term, option)
  {
    if |logs| > 0 {
      var front := logs[..|logs| - 1];
      var last := logs[|logs| - 1];
      FilterIdempotent(front, term, option);
      if Matches(last, term, option) {
        FilterAppend(Filter(front, term, option), [last], term, option);
        assert Filter([last], term, option) == [last] by {
          assert [last][..0] == [];
        }
      }
    }
  }

  // ---------------------------------------------------------------- the round trip

  /** One recorded attempt: what a POST to the attempt log sends, and when. */
  datatype Attempt = Attempt(attempt: string, typ: string, time: int)

  /** The logs string after POSTs of `es`, in order, from an empty record. */
  function Render(es: seq<Attempt>): string {
    if |es| == 0 then ""
    else
      var e := es[|es| - 1];
      AttemptLogs.Appended(Render(es[..|es| - 1]), e.attempt, e.typ, e.time)
  }

  function Line(e: Attempt): string {
    AttemptLogs.LogLine(e.attempt, e.typ, e.time)
  }

  function Lines(es: seq<Attempt>): (r: seq<string>)
    ensures |r| == |es|
  {
    if |es| == 0 then [] else Lines(es[..|es| - 1]) + [Line(es[|es| - 1])]
  }

  function Expected(es: seq<Attempt>, format: int -> string): (r: seq<Log>)
    ensures |r| == |es|
  {
    if |es| == 0 then []
    else
      var e := es[|es| - 1];
      Expected(es[..|es| - 1], format) + [Log(e.time, format(e.time), e.typ, e.attempt)]
  }

  /** Attempts the page reads back unchanged: no newline in an attempt or a type, no `+`
      in a type, and no white space opening the first attempt (the page trims the whole
      string before splitting it). */
  predicate Readable(es: seq<Attempt>) {
    (forall i :: 0 <= i < |es| ==> '\n' !in es[i].attempt && '\n' !in es[i].typ && '+' !in es[i].typ)
    && (|es| > 0 && |es[0].attempt| > 0 ==> es[0].attempt[0] !in JsSpace)
  }

  /** `Split` of a concatenation at a separator splits each side. */
  lemma {:induction false} SplitAppend(x: string, c: char, y: string)
    ensures Split(x + [c] + y, c) == Split(x, c) + Split(y, c)
    decreases |x|
  {
    var i := IndexOf(x, c);
    if i < 0 {
      SplitStep(x, c, y);
    } else {
      var a := x[..i];
      var b := x[i + 1..];
      assert x == a + [c] + b;
      SplitAppend(b, c, y);
      SplitAppendStep(x, a, b, c, y);
    }
  }

  lemma SplitAppendStep(x: string, a: string, b: string, c: char, y: string)
    requires x == a + [c] + b && c !in a
    requires Split(b + [c] + y, c) == Split(b, c) + Split(y, c)
    ensures Split(x + [c] + y, c) == Split(x, c) + Split(y, c)
  {
    var w := b + [c] + y;
    var sb, sy := Split(b, c), Split(y, c);
    assert x + [c] + y == a + [c] + w;
    SplitStep(a, c, w);
    SplitStep(a, c, b);
    assert Split(x + [c] + y, c) == [a] + (sb + sy);
    assert Split(x, c) == [a] + sb;
    Associative([a], sb, sy);
  }

  lemma Associative<T>(p: seq<T>, q: seq<T>, r: seq<T>)
    ensures p + (q + r) == (p + q) + r
  {
  }

  lemma SplitNone(s: string, c: char)
    requires c !in s
    ensures Split(s, c) == [s]
  {
  }

  /** The characters of a formatted integer: a sign, then digits ending in a digit. */
  lemma ItoaChars(n: int)
    ensures forall i :: 0 <= i < |Itoa(n)| ==> IsDigit(Itoa(n)[i]) || (i == 0 && Itoa(n)[i] == '-')
    ensures IsDigit(Itoa(n)[|Itoa(n)| - 1])
  {
    var s := Itoa(n);
    if n < 0 {
      assert forall i :: 1 <= i < |s| ==> s[i] == s[1..][i - 1];
    }
  }

  /** A line the server writes parses back into the attempt it records. */
  lemma EntryRoundTrip(e: Attempt, format: int -> string)
    requires '+' !in e.typ
    ensures ParseEntry(Line(e), format) == Some(Log(e.time, format(e.time), e.typ, e.attempt))
  {
    var a, t, d := e.attempt, e.typ, Itoa(e.time);
    ItoaChars(e.time);
    assert '+' !in d;
    var w := t + ['+'] + d;
    LineShape(a, t, d);
    SplitAppend(a, '+', w);
    SplitAppend(t, '+', d);
    SplitNone(t, '+');
    SplitNone(d, '+');
    Associative(Split(a, '+'), [t], [d]);
    JoinSplit(a, '+');
    ParseIntJsItoa(e.time, []);
    assert d + [] == d;
    ParseParts(Line(e), Split(a, '+'), t, d, format);
  }

  lemma LineShape(a: string, t: string, d: string)
    ensures a + "+" + t + "+" + d == a + ['+'] + (t + ['+'] + d)
  {
    Associative(a + "+", t, "+");
    Associative(a + "+", t + "+", d);
  }

  /** An entry whose parts are some leading parts, a type and a time. */
  lemma ParseParts(entry: string, front: seq<string>, t: string, d: string, format: int -> string)
    requires Split(entry, '+') == front + [t] + [d] && |front| >= 1
    requires ParseIntJs(d).Some?
    ensures ParseEntry(entry, format)
         == Some(Log(ParseIntJs(d).value, format(ParseIntJs(d).value), t, Join(front, '+')))
  {
    var parts := Split(entry, '+');
    var n := |parts|;
    assert parts[n - 1] == d && parts[n - 2] == t;
    assert parts[..n - 2] == front;
    var v := ParseIntJs(d).value;
    calc {
      ParseEntry(entry, format);
      Some(Log(v, format(v), parts[n - 2], Join(parts[..n - 2], '+')));
    }
  }

  lemma {:induction false} ParseLines(es: seq<Attempt>, format: int -> string)
    requires forall i :: 0 <= i < |es| ==> '+' !in es[i].typ
    ensures ParseAll(Lines(es), format) == Expected(es, format)
  {
    if |es| > 0 {
      var front := es[..|es| - 1];
      ParseLines(front, format);
      EntryRoundTrip(es[|es| - 1], format);
      assert Lines(es)[..|es| - 1] == Lines(front);
    }
  }

  lemma {:induction false} LinesNonEmpty(es: seq<Attempt>)
    ensures NonEmpty(Lines(es)) == Lines(es)
  {
    if |es| > 0 {
      var front := es[..|es| - 1];
      LinesNonEmpty(front);
      assert Lines(es)[..|es| - 1] == Lines(front);
      var l := Line(es[|es| - 1]);
      assert l[|es[|es| - 1].attempt|] == '+';
    }
  }

  /** Splitting the logs string at newlines gives an empty first piece, then the lines. */
  lemma {:induction false} RenderSplit(es: seq<Attempt>)
    requires forall i :: 0 <= i < |es| ==> '\n' !in es[i].attempt && '\n' !in es[i].typ
    ensures Split(Render(es), '\n') == [""] + Lines(es)
  {
    if |es| > 0 {
      var front := es[..|es| - 1];
      var e := es[|es| - 1];
      var l := Line(e);
      RenderSplit(front);
      LineOneLine(e);
      assert Render(es) == Render(front) + ['\n'] + l;
      SplitAppend(Render(front), '\n', l);
      SplitNone(l, '\n');
      assert Lines(es) == Lines(front) + [l];
      Associative([""], Lines(front), [l]);
    }
  }

  /** A line holds no newline when its attempt and type hold none. */
  lemma LineOneLine(e: Attempt)
    requires '\n' !in e.attempt && '\n' !in e.typ
    ensures '\n' !in Line(e)
  {
    ItoaChars(e.time);
    assert '\n' !in Itoa(e.time);
  }

  /** The logs string starts with a newline and then the first line. */
  lemma {:induction false} RenderStart(es: seq<Attempt>)
    requires |es| > 0
    ensures |Render(es)| > |Line(es[0])|
    ensures Render(es)[..|Line(es[0])| + 1] == "\n" + Line(es[0])
  {
    if |es| > 1 {
      var front := es[..|es| - 1];
      var e := es[|es| - 1];
      RenderStart(front);
      assert front[0] == es[0];
      PrefixKept(Render(front), "\n" + Line(e), |Line(es[0])| + 1);
    }
  }

  lemma PrefixKept(p: string, q: string, m: nat)
    requires m <= |p|
    ensures (p + q)[..m] == p[..m]
  {
  }

  /** The logs string ends with the last digit of the last time. */
  lemma RenderEnd(es: seq<Attempt>)
    requires |es| > 0
    ensures IsDigit(Render(es)[|Render(es)| - 1])
  {
    var e := es[|es| - 1];
    var d := Itoa(e.time);
    ItoaChars(e.time);
    var p := Render(es[..|es| - 1]) + "\n" + e.attempt + "+" + e.typ + "+";
    assert Render(es) == p + d;
  }

  /** Trimming a string whose only cut character at either end is its first removes
      just that character. */
  lemma TrimFirst(s: string, cut: set<char>)
    requires |s| >= 2 && s[0] in cut && s[1] !in cut && s[|s| - 1] !in cut
    ensures Trim(s, cut) == s[1..]
  {
    assert Leading(s[1..], cut) == 0;
    assert TrimLeft(s, cut) == s[1..];
    assert Trailing(s[1..], cut) == 0;
  }

  lemma StartChars(s: string, first: string)
    requires |first| > 0 && |s| > |first| && s[..|first| + 1] == "\n" + first
    ensures s[0] == '\n' && s[1] == first[0]
  {
    assert s[0] == s[..|first| + 1][0] && s[1] == s[..|first| + 1][1];
  }

  lemma LineFirst(e: Attempt)
    ensures |Line(e)| > 0 && Line(e)[0] == if |e.attempt| > 0 then e.attempt[0] else '+'
  {
  }

  /** Trimming the logs string removes exactly the newline the first POST wrote. */
  lemma TrimRender(es: seq<Attempt>)
    requires Readable(es) && |es| > 0
    ensures |Render(es)| >= 2
    ensures JsTrim(Render(es)) == Render(es)[1..]
  {
    var s := Render(es);
    RenderStart(es);
    RenderEnd(es);
    var first := Line(es[0]);
    StartChars(s, first);
    LineFirst(es[0]);
    if |es[0].attempt| == 0 {
      NotJsSpace('+');
    }
    NewlineIsJsSpace();
    NotJsSpace(s[|s| - 1]);
    TrimFirst(s, JsSpace);
  }

  /** Once the leading newline is cut, the logs string splits into its lines. */
  lemma BodyLines(es: seq<Attempt>)
    requires Readable(es) && |es| > 0
    ensures |Render(es)| >= 2
    ensures Split(Render(es)[1..], '\n') == Lines(es)
  {
    var s := Render(es);
    var ls := Lines(es);
    assert |s| >= 2 && s[0] == '\n' by {
      RenderStart(es);
      LineFirst(es[0]);
      StartChars(s, Line(es[0]));
    }
    assert Split(s, '\n') == [""] + ls by {
      RenderSplit(es);
    }
    CutSplit(s, ls);
  }

  /** Cutting a leading separator drops the empty first piece of the split. */
  lemma CutSplit(s: string, rest: seq<string>)
    requires |s| > 0 && s[0] == '\n' && Split(s, '\n') == [""] + rest
    ensures Split(s[1..], '\n') == rest
  {
    FirstCut(s, '\n');
    SplitStep("", '\n', s[1..]);
    DropFirst("", Split(s[1..], '\n'), rest);
  }

  lemma DropFirst<T>(x: T, p: seq<T>, q: seq<T>)
    requires [x] + p == [x] + q
    ensures p == q
  {
    assert p == ([x] + p)[1..];
  }

  lemma FirstCut(s: string, c: char)
    requires |s| > 0 && s[0] == c
    ensures s == "" + [c] + s[1..]
  {
  }

  /** Round trip: the page parses the logs string written by a run of POSTs back into
      exactly the attempts, types and times posted, in order. */
  lemma RoundTrip(es: seq<Attempt>, format: int -> string)
    requires Readable(es)
    ensures ParsedLogs(Render(es), format) == Expected(es, format)
  {
    if |es| > 0 {
      var s := Render(es);
      TrimRender(es);
      BodyLines(es);
      assert JsTrim(s) != "";
      assert ParsedLogs(s, format) == ParseAll(NonEmpty(Lines(es)), format);
      LinesNonEmpty(es);
      ParseLines(es, format);
    }
  }

  /** The server's GET after one more POST returns the rendering of the longer run: with
      RoundTrip, the page shows every attempt posted. */
  lemma PostThenShown(t: Store.Tables, email: string, members: set<string>, body: Option<Json.Json>,
                      now: int, codec: Json.Codec, es: seq<Attempt>)
    requires Json.Lawful(codec) && email != ""
    requires AttemptLogs.PostPlan(t, email, body, now, codec).0.Saved?
    requires codec.decode(AttemptLogs.RecordText(t, email, codec)).value.fields["logs"].s == Render(es)
    ensures var after := Store.ApplyAll(t, AttemptLogs.PostPlan(t, email, body, now, codec).1, now, codec).0;
      var req := AttemptLogs.Request(body).value;
      AttemptLogs.GetPlan(after, email, members, map[], codec) == AttemptLogs.Data(Render(es + [Attempt(req.0, req.1, now)]))
  {
    AttemptLogs.PostThenGet(t, email, members, body, now, codec);
    assert (es + [Attempt(AttemptLogs.Request(body).value.0, AttemptLogs.Request(body).value.1, now)])[..|es|] == es;
  }
}
