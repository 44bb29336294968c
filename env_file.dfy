/**
 * `.env` loading shared by the v2 and live-data servers: each line is stripped,
 * blank and `#` lines and lines without `=` are skipped, the line is split at its
 * first `=`, and key and value are stripped of whitespace and then of the quote
 * characters in order. A key already in the environment is never overwritten. The loop
 * has no `try`: an assignment `os.environ` rejects (an empty name, or a NUL in the name or
 * the value) raises while the module is imported, and the server never starts.
 */
module EnvFile {
  import opened Wrappers
  import opened Text

  /** `s.strip(q1).strip(q2)...` for the quote characters in order. */
  function StripQuotes(s: string, quotes: seq<char>): string
    decreases |quotes|
  {
    if |quotes| == 0 then s else StripQuotes(StripChars(s, {quotes[0]}), quotes[1..])
  }

  /** `x.strip()` followed by the quote strips. */
  function CleanPart(s: string, quotes: seq<char>): string {
    StripQuotes(Strip(s), quotes)
  }

  /** The (key, value) pair a line defines, if any. */
  function ParseLine(raw: string, quotes: seq<char>): (r: Option<(string, string)>)
    ensures r.Some? ==> var line := Strip(raw);
      line != "" && line[0] != '#' && '=' in line
    ensures var line := Strip(raw);
      line != "" && line[0] != '#' && '=' in line ==> r.Some?
  {
    var line := Strip(raw);
    if line == "" || line[0] == '#' then None
    else
      var i := FindChar(line, '=');
      if i == |line| then None
      else Some((CleanPart(line[..i], quotes), CleanPart(line[i + 1..], quotes)))
  }

  /** The key is cut before the first `=`, so a parsed key never holds one before its strips. */
  lemma ParseLineSplitsAtFirst(raw: string, quotes: seq<char>)
    requires ParseLine(raw, quotes).Some?
    ensures var line := Strip(raw); var i := FindChar(line, '=');
      i < |line| && '=' !in line[..i] &&
      ParseLine(raw, quotes).value == (CleanPart(line[..i], quotes), CleanPart(line[i + 1..], quotes))
  {
  }

  /** `ParseLine` for a fixed quote order, as a value. */
  function LineParser(quotes: seq<char>): string -> Option<(string, string)> {
    (line: string) => ParseLine(line, quotes)
  }

  /** A name `os.environ` accepts: assigning an empty name or one holding a NUL raises `ValueError`. */
  predicate SettableKey(k: string) {
    k != "" && '\0' !in k
  }

  /** An assignment `os.environ[k] = v` that does not raise: a settable name and a NUL-free value. */
  predicate Settable(kv: (string, string)) {
    SettableKey(kv.0) && '\0' !in kv.1
  }

  /**
   * The environment after reading `lines` in order with `parse`, never overwriting a set key;
   * `None` when an assignment raises, which aborts the module import and so the server's start.
   */
  function LoadedEnv(env: map<string, string>, lines: seq<string>, parse: string -> Option<(string, string)>): Option<map<string, string>>
    decreases |lines|
  {
    if |lines| == 0 then Some(env)
    else
      match LoadedEnv(env, lines[..|lines| - 1], parse)
      case None => None
      case Some(before) =>
        match parse(lines[|lines| - 1])
        case None => Some(before)
        case Some(kv) =>
          if kv.0 in before then Some(before)
          else if Settable(kv) then Some(before[kv.0 := kv.1])
          else None
  }

  /**
   * `key not in os.environ`: once loading succeeds, what was set before keeps its value,
   * and every new key is a settable name that comes from some line.
   */
  lemma {:induction false} LoadedEnvKeeps(env: map<string, string>, lines: seq<string>, parse: string -> Option<(string, string)>)
    requires LoadedEnv(env, lines, parse).Some?
    ensures var m := LoadedEnv(env, lines, parse).value;
      forall k :: k in env ==> k in m && m[k] == env[k]
    ensures var m := LoadedEnv(env, lines, parse).value;
      forall k :: k in m && k !in env ==>
        SettableKey(k) && exists n :: 0 <= n < |lines| && parse(lines[n]).Some? && parse(lines[n]).value.0 == k
    decreases |lines|
  {
    if |lines| > 0 {
      var init := lines[..|lines| - 1];
      LoadedEnvKeeps(env, init, parse);
      var m := LoadedEnv(env, lines, parse).value;
      var before := LoadedEnv(env, init, parse).value;
      forall k | k in m && k !in env
        ensures SettableKey(k) && exists n :: 0 <= n < |lines| && parse(lines[n]).Some? && parse(lines[n]).value.0 == k
      {
        if k in before {
          var n :| 0 <= n < |init| && parse(init[n]).Some? && parse(init[n]).value.0 == k;
          assert lines[n] == init[n];
        } else {
          assert parse(lines[|lines| - 1]).Some?;
        }
      }
    }
  }

  /** Once loading succeeds, every key some line defines is in the environment. */
  lemma {:induction false} LoadedEnvDefines(env: map<string, string>, lines: seq<string>, parse: string -> Option<(string, string)>)
    requires LoadedEnv(env, lines, parse).Some?
    ensures forall n :: 0 <= n < |lines| && parse(lines[n]).Some? ==> parse(lines[n]).value.0 in LoadedEnv(env, lines, parse).value
    decreases |lines|
  {
    if |lines| > 0 {
      var init := lines[..|lines| - 1];
      LoadedEnvDefines(env, init, parse);
      forall n | 0 <= n < |lines| - 1 ensures lines[n] == init[n] {
      }
    }
  }

  /** A line naming an unsettable key that is not already set aborts the load. */
  lemma BadKeyAborts(env: map<string, string>, lines: seq<string>, parse: string -> Option<(string, string)>, n: int)
    requires 0 <= n < |lines| && parse(lines[n]).Some?
    requires !SettableKey(parse(lines[n]).value.0) && parse(lines[n]).value.0 !in env
    ensures LoadedEnv(env, lines, parse).None?
  {
    if LoadedEnv(env, lines, parse).Some? {
      LoadedEnvDefines(env, lines, parse);
      LoadedEnvKeeps(env, lines, parse);
    }
  }

  /** With every parsed assignment settable, loading succeeds. */
  lemma {:induction false} CleanLinesLoad(env: map<string, string>, lines: seq<string>, parse: string -> Option<(string, string)>)
    requires forall n :: 0 <= n < |lines| && parse(lines[n]).Some? ==> Settable(parse(lines[n]).value)
    ensures LoadedEnv(env, lines, parse).Some?
    decreases |lines|
  {
    if |lines| > 0 {
      var init := lines[..|lines| - 1];
      forall n | 0 <= n < |init| && parse(init[n]).Some? ensures Settable(parse(init[n]).value) {
        assert init[n] == lines[n];
      }
      CleanLinesLoad(env, init, parse);
    }
  }

  /** A failed load stays failed: later lines are never read. */
  lemma {:induction false} FailureSticks(env: map<string, string>, lines: seq<string>, parse: string -> Option<(string, string)>, j: int)
    requires 0 <= j <= |lines| && LoadedEnv(env, lines[..j], parse).None?
    ensures LoadedEnv(env, lines, parse).None?
    decreases |lines| - j
  {
    if j < |lines| {
      assert lines[..j + 1][..j] == lines[..j];
      FailureSticks(env, lines, parse, j + 1);
    } else {
      assert lines[..j] == lines;
    }
  }

  /** The first line that defines a key wins: later definitions of it are ignored. */
  lemma FirstDefinitionWins(env: map<string, string>, lines: seq<string>, parse: string -> Option<(string, string)>, line: string)
    requires LoadedEnv(env, lines, parse).Some?
    requires parse(line).Some? && parse(line).value.0 in LoadedEnv(env, lines, parse).value
    ensures LoadedEnv(env, lines + [line], parse) == LoadedEnv(env, lines, parse)
  {
    assert (lines + [line])[..|lines|] == lines;
  }

  /** Stripping quotes off the empty string leaves it empty. */
  lemma {:induction false} StripQuotesEmpty(quotes: seq<char>)
    ensures StripQuotes("", quotes) == ""
    decreases |quotes|
  {
    if |quotes| > 0 {
      assert |StripChars("", {quotes[0]})| == 0;
      StripQuotesEmpty(quotes[1..]);
    }
  }

  /** A line that starts with `=` once stripped defines the empty key. */
  lemma LeadingEqualsEmptyKey(raw: string, quotes: seq<char>)
    requires Strip(raw) != "" && Strip(raw)[0] == '='
    ensures ParseLine(raw, quotes).Some? && ParseLine(raw, quotes).value.0 == ""
  {
    var line := Strip(raw);
    assert FindChar(line, '=') == 0;
    assert line[..0] == "";
    assert |Strip("")| == 0;
    StripQuotesEmpty(quotes);
  }

  /**
   * A line such as `=x`, whose stripped form starts with `=`, names the empty key, so loading
   * a file that holds it aborts the server's start (`""` is never in `os.environ`).
   */
  lemma EmptyKeyAbortsStart(env: map<string, string>, lines: seq<string>, quotes: seq<char>, n: int)
    requires 0 <= n < |lines| && Strip(lines[n]) != "" && Strip(lines[n])[0] == '='
    requires "" !in env
    ensures LoadedEnv(env, lines, LineParser(quotes)).None?
  {
    LeadingEqualsEmptyKey(lines[n], quotes);
    BadKeyAborts(env, lines, LineParser(quotes), n);
  }

  /** The reading loop of `load_env_file`, over the file's lines; `None` when an assignment raises. */
  method LoadEnvFile(environ: map<string, string>, lines: seq<string>, quotes: seq<char>) returns (env: Option<map<string, string>>)
    ensures env == LoadedEnv(environ, lines, LineParser(quotes))
  {
    env := ReadLines(environ, lines, LineParser(quotes));
  }

  /** The loop over the lines, each parsed by `parse`; it stops at the first assignment that raises. */
  method ReadLines(environ: map<string, string>, lines: seq<string>, parse: string -> Option<(string, string)>)
    returns (env: Option<map<string, string>>)
    ensures env == LoadedEnv(environ, lines, parse)
  {
    var m := environ;
    var n := 0;
    while n < |lines|
      invariant 0 <= n <= |lines|
      invariant LoadedEnv(environ, lines[..n], parse) == Some(m)
    {
      assert lines[..n + 1][..n] == lines[..n];
      var kv := parse(lines[n]);
      if kv.Some? && kv.value.0 !in m {
        if !Settable(kv.value) {
          FailureSticks(environ, lines, parse, n + 1);
          return None;
        }
        m := m[kv.value.0 := kv.value.1];
      }
      n := n + 1;
    }
    assert lines[..|lines|] == lines;
    env := Some(m);
  }

  /** The v2 server strips only double quotes. */
  const V2Quotes: seq<char> := ['"']

  /** The live-data server strips double quotes, then single quotes. */
  const RealDataQuotes: seq<char> := ['"', '\'']
}
