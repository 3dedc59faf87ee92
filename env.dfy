/** The `.env` loader at the top of `main` (main.go): every line is trimmed, blank
    lines and `#` comments are skipped, the rest is split at the first `=`, both
    halves are trimmed, one pair of matching outer quotes is removed from the value,
    and the variable is set, in file order. Reading the file is not modelled: the
    loader takes the scanner's lines. */
module Env {
  import opened Basics
  import opened Text

  /** One matching pair of outer `"` or `'` quotes is removed from a value of length
      two or more. */
  function Unquote(v: string): (r: string)
    ensures |v| >= 2 && (v[0] == v[|v| - 1] == '"' || v[0] == v[|v| - 1] == '\'') ==> r == v[1..|v| - 1]
    ensures !(|v| >= 2 && (v[0] == v[|v| - 1] == '"' || v[0] == v[|v| - 1] == '\'')) ==> r == v
  {
    if |v| >= 2 && ((v[0] == '"' && v[|v| - 1] == '"') || (v[0] == '\'' && v[|v| - 1] == '\'')) then
      v[1..|v| - 1]
    else
      v
  }

  /** The key and value of one line, or None for a line the loop skips. */
  function ParseLine(line: string): Option<(string, string)> {
    var t := TrimSpace(line);
    if t == "" || t[0] == '#' then None
    else
      var parts := SplitN(t, '=', 2);
      if |parts| != 2 then None
      else Some((TrimSpace(parts[0]), Unquote(TrimSpace(parts[1]))))
  }

  /** `os.Setenv` refuses (and the loader ignores the error) an empty key, a key
      holding `=` or NUL, and a value holding NUL. */
  predicate Settable(k: string, v: string) {
    k != "" && '=' !in k && '\0' !in k && '\0' !in v
  }

  /** The environment after one line. */
  function Step(env: map<string, string>, line: string): map<string, string> {
    match ParseLine(line)
    case Some((k, v)) => if Settable(k, v) then env[k := v] else env
    case None => env
  }

  /** The environment after the lines, in order. */
  function Loaded(env: map<string, string>, lines: seq<string>): map<string, string>
    decreases |lines|
  {
    if |lines| == 0 then env else Step(Loaded(env, lines[..|lines| - 1]), lines[|lines| - 1])
  }

  class Environment {
    var vars: map<string, string>

    constructor (initial: map<string, string>)
      ensures vars == initial
    {
      vars := initial;
    }

    /** The scanner loop of `main`. */
    method Load(lines: seq<string>)
      modifies this
      ensures vars == Loaded(old(vars), lines)
    {
      ghost var start := vars;
      for i := 0 to |lines|
        invariant vars == Loaded(start, lines[..i])
      {
        assert lines[..i + 1][..i] == lines[..i];
        var line := TrimSpace(lines[i]);
        if line == "" || line[0] == '#' {
          continue;
        }
        var parts := SplitN(line, '=', 2);
        if |parts| != 2 {
          continue;
        }
        var k := TrimSpace(parts[0]);
        var v := TrimSpace(parts[1]);
        v := Unquote(v);
        if Settable(k, v) {
          vars := vars[k := v];
        }
      }
      assert lines[..|lines|] == lines;
    }
  }

  // ---------------------------------------------------------------- properties

  /** Blank lines and comments set nothing. */
  lemma SkipsBlankAndComments(line: string)
    requires TrimSpace(line) == "" || TrimSpace(line)[0] == '#'
    ensures ParseLine(line) == None
  {
  }

  /** A line without `=` sets nothing. */
  lemma SkipsWithoutEquals(line: string)
    requires '=' !in line
    ensures ParseLine(line) == None
  {
  }

  /** A parsed line is split at its first `=`: the key is the trimmed text before it,
      the value the unquoted trimmed text after it, which may itself hold `=`. */
  lemma ParsedAtFirstEquals(line: string)
    requires ParseLine(line).Some?
    ensures var t := TrimSpace(line); var i := IndexOf(t, '=');
      0 <= i && '=' !in t[..i] && t != "" && t[0] != '#'
      && ParseLine(line).value == (TrimSpace(t[..i]), Unquote(TrimSpace(t[i + 1..])))
  {
  }

  /** Writing `key=value` and parsing it gives the pair back, for a key with no `=`
      and a value that is already trimmed and not quoted. */
  lemma LineRoundTrip(k: string, v: string)
    requires TrimSpace(k) == k && k != "" && k[0] != '#' && '=' !in k
    requires TrimSpace(v) == v && Unquote(v) == v
    ensures ParseLine(k + "=" + v) == Some((k, v))
  {
    ParseAtKey(k, v);
  }

  /** A quoted value loses exactly its quotes: `key="value"` gives `value`. */
  lemma QuotedRoundTrip(k: string, v: string)
    requires TrimSpace(k) == k && k != "" && k[0] != '#' && '=' !in k
    ensures ParseLine(k + "=\"" + v + "\"") == Some((k, v))
  {
    var q := "\"" + v + "\"";
    assert k + "=" + q == k + "=\"" + v + "\"";
    QuoteNotSpace();
    TrimNoop(q, GoSpace);
    ParseAtKey(k, q);
    assert q[1..|q| - 1] == v;
  }

  /** A line made of a trimmed key, `=` and a trimmed value parses to the key and the
      unquoted value. */
  lemma ParseAtKey(k: string, v: string)
    requires TrimSpace(k) == k && k != "" && k[0] != '#' && '=' !in k
    requires v == [] || TrimSpace(v) == v
    ensures ParseLine(k + "=" + v) == Some((k, Unquote(v)))
  {
    var line := k + "=" + v;
    EndsNotSpace(line, k, v);
    TrimNoop(line, GoSpace);
    SplitNStep(k, '=', v, 2);
  }

  lemma QuoteNotSpace()
    ensures '"' !in GoSpace
  {
  }

  lemma EndsNotSpace(line: string, k: string, v: string)
    requires line == k + "=" + v && k != "" && TrimSpace(k) == k
    requires v == [] || TrimSpace(v) == v
    ensures line[0] !in GoSpace && line[|line| - 1] !in GoSpace
  {
    TrimEnds(k, GoSpace);
    if v != [] {
      TrimEnds(v, GoSpace);
      assert line[|line| - 1] == v[|v| - 1];
    } else {
      assert line[|line| - 1] == '=';
    }
  }

  /** Lines are applied in order, so the last line that sets a key decides its value,
      and a key no line sets keeps its earlier value. */
  lemma {:induction false} LastWins(env: map<string, string>, lines: seq<string>, j: nat, k: string, v: string)
    requires j < |lines| && ParseLine(lines[j]) == Some((k, v)) && Settable(k, v)
    requires forall m :: j < m < |lines| ==> ParseLine(lines[m]).None? || ParseLine(lines[m]).value.0 != k
    ensures k in Loaded(env, lines) && Loaded(env, lines)[k] == v
  {
    var n := |lines| - 1;
    var front := lines[..n];
    var before := Loaded(env, front);
    assert Loaded(env, lines) == Step(before, lines[n]);
    if j < n {
      assert k in before && before[k] == v by {
        forall m | j < m < |front|
          ensures ParseLine(front[m]).None? || ParseLine(front[m]).value.0 != k
        {
          assert front[m] == lines[m];
        }
        assert front[j] == lines[j];
        LastWins(env, front, j, k, v);
      }
      StepOther(before, lines[n], k);
    } else {
      StepSets(before, lines[n], k, v);
    }
  }

  lemma StepSets(env: map<string, string>, line: string, k: string, v: string)
    requires ParseLine(line) == Some((k, v)) && Settable(k, v)
    ensures Step(env, line) == env[k := v]
  {
  }

  lemma StepOther(env: map<string, string>, line: string, k: string)
    requires ParseLine(line).None? || ParseLine(line).value.0 != k
    ensures k in Step(env, line) <==> k in env
    ensures k in env ==> Step(env, line)[k] == env[k]
  {
  }

  lemma {:induction false} Untouched(env: map<string, string>, lines: seq<string>, k: string)
    requires forall m :: 0 <= m < |lines| ==> ParseLine(lines[m]).None? || ParseLine(lines[m]).value.0 != k
    ensures k in Loaded(env, lines) <==> k in env
    ensures k in env ==> Loaded(env, lines)[k] == env[k]
  {
    if |lines| > 0 {
      var front := lines[..|lines| - 1];
      assert forall m :: 0 <= m < |front| ==> front[m] == lines[m];
      Untouched(env, front, k);
      StepOther(Loaded(env, front), lines[|lines| - 1], k);
    }
  }
}
