/**
 * The environment checker's two pieces of logic: reading a `.env` file
 * into a dictionary, and listing the required variables that are missing
 * or still hold a placeholder. A file is the list of its lines; the file
 * system is a map from path to lines.
 */
module EnvironmentTester {
  import opened Wrappers
  import Strings

  /** The variables every environment needs, in the order they are checked. */
  const RequiredForAll: seq<string> :=
    ["APP_ENV", "AZURE_OPENAI_ENDPOINT", "AZURE_OPENAI_API_KEY", "AZURE_VOICELIVE_ENDPOINT", "AZURE_VOICELIVE_API_KEY"]

  /**
   * The list `REQUIRED_VARS` holds under a name: the common list under
   * `all`, and the database variables under `staging` and `production`.
   */
  function RequiredFor(envName: string): (r: Option<seq<string>>)
    ensures r.Some? <==> envName == "all" || envName == "staging" || envName == "production"
    ensures envName == "all" ==> r == Some(RequiredForAll)
  {
    if envName == "all" then Some(RequiredForAll)
    else if envName == "staging" || envName == "production" then Some(["SUPABASE_URL", "SUPABASE_SERVICE_ROLE_KEY"])
    else None
  }

  /**
   * One line of a `.env` file: after stripping, an empty line, a comment or a
   * line without `=` is skipped; otherwise it splits at its first `=`, and
   * both sides are stripped. Quotes are kept.
   */
  function ParseLine(line: string): Option<(string, string)> {
    var t := Strings.Strip(line);
    if t == [] || t[0] == '#' then None
    else match Strings.IndexOf(t, '=')
      case None => None
      case Some(i) => Some((Strings.Strip(t[..i]), Strings.Strip(t[i + 1..])))
  }

  /** A line is kept exactly when, stripped, it is non-empty, not a comment, and holds an `=`. */
  lemma ParseLineKeeps(line: string)
    ensures var t := Strings.Strip(line);
      ParseLine(line).Some? <==> t != [] && t[0] != '#' && '=' in t
  {
  }

  /** What each line of a file parses to, line by line. */
  function ParsedLines(lines: seq<string>): (r: seq<Option<(string, string)>>)
    ensures |r| == |lines| && forall i :: 0 <= i < |lines| ==> r[i] == ParseLine(lines[i])
  {
    seq(|lines|, i requires 0 <= i < |lines| => ParseLine(lines[i]))
  }

  /** The dictionary the parsed lines build, each kept line storing its value under its key in turn. */
  function StoreAll(parsed: seq<Option<(string, string)>>): map<string, string>
    decreases |parsed|
  {
    if parsed == [] then map[]
    else
      var m := StoreAll(parsed[..|parsed| - 1]);
      match parsed[|parsed| - 1]
      case None => m
      case Some(kv) => m[kv.0 := kv.1]
  }

  /** The dictionary a file's lines build. */
  function ParseEnv(lines: seq<string>): map<string, string> {
    StoreAll(ParsedLines(lines))
  }

  /** The key of a line, when the line is kept. */
  predicate SetsKey(line: string, k: string) {
    ParseLine(line).Some? && ParseLine(line).value.0 == k
  }

  /** The last store of a key decides its value. */
  lemma {:induction false} LastStoreWins(parsed: seq<Option<(string, string)>>, j: nat, k: string, v: string)
    requires j < |parsed| && parsed[j] == Some((k, v))
    requires forall i :: j < i < |parsed| ==> parsed[i].None? || parsed[i].value.0 != k
    ensures k in StoreAll(parsed) && StoreAll(parsed)[k] == v
    decreases |parsed|
  {
    var last := |parsed| - 1;
    if j < last {
      var front := parsed[..last];
      assert front[j] == parsed[j];
      LastStoreWins(front, j, k, v);
    }
  }

  /**
   * The last line that sets a key decides its value: a later occurrence of a
   * key overwrites an earlier one.
   */
  lemma LastOccurrenceWins(lines: seq<string>, j: nat, k: string, v: string)
    requires j < |lines| && ParseLine(lines[j]) == Some((k, v))
    requires forall i :: j < i < |lines| ==> !SetsKey(lines[i], k)
    ensures k in ParseEnv(lines) && ParseEnv(lines)[k] == v
  {
    LastStoreWins(ParsedLines(lines), j, k, v);
  }

  /** Every key of the dictionary was stored by some entry. */
  lemma {:induction false} KeysComeFromStores(parsed: seq<Option<(string, string)>>, k: string)
    requires k in StoreAll(parsed)
    ensures exists i :: 0 <= i < |parsed| && parsed[i].Some? && parsed[i].value.0 == k
    decreases |parsed|
  {
    var last := |parsed| - 1;
    if !(parsed[last].Some? && parsed[last].value.0 == k) {
      var front := parsed[..last];
      KeysComeFromStores(front, k);
      var i :| 0 <= i < |front| && front[i].Some? && front[i].value.0 == k;
      assert parsed[i] == front[i];
    }
  }

  /** Every key of the dictionary comes from a kept line. */
  lemma KeysComeFromLines(lines: seq<string>, k: string)
    requires k in ParseEnv(lines)
    ensures exists i :: 0 <= i < |lines| && SetsKey(lines[i], k)
  {
    KeysComeFromStores(ParsedLines(lines), k);
    var i :| 0 <= i < |lines| && ParsedLines(lines)[i].Some? && ParsedLines(lines)[i].value.0 == k;
    assert SetsKey(lines[i], k);
  }

  lemma StrippedIsUnchanged(s: string)
    requires s != [] && !Strings.IsPySpace(s[0]) && !Strings.IsPySpace(s[|s| - 1])
    ensures Strings.Strip(s) == s
  {
    assert Strings.StripStart(s) == s;
    assert Strings.StripEnd(s) == s;
  }

  /**
   * A line splits at its first `=`: the value keeps every later `=`, so
   * `KEY=a=b` sets `KEY` to `a=b`.
   */
  lemma ValueKeepsEquals(k: string, v: string)
    requires k != [] && k[0] != '#' && '=' !in k && v != []
    requires !Strings.IsPySpace(k[0]) && !Strings.IsPySpace(k[|k| - 1])
    requires !Strings.IsPySpace(v[0]) && !Strings.IsPySpace(v[|v| - 1])
    ensures ParseLine(k + "=" + v) == Some((k, v))
  {
    var line := k + "=" + v;
    StrippedIsUnchanged(line);
    StrippedIsUnchanged(k);
    StrippedIsUnchanged(v);
    assert line[|k|] == '=' && line[..|k|] == k && line[|k| + 1..] == v;
    assert Strings.IndexOf(line, '=') == Some(|k|);
  }

  /** `load_env_file`: a missing file gives an empty dictionary. */
  method LoadEnvFile(files: map<string, seq<string>>, envPath: string) returns (vars: map<string, string>)
    ensures envPath !in files ==> vars == map[]
    ensures envPath in files ==> vars == ParseEnv(files[envPath])
  {
    if envPath !in files {
      return map[];
    }
    var lines := files[envPath];
    ghost var all := ParsedLines(lines);
    vars := map[];
    for i := 0 to |lines|
      invariant vars == StoreAll(all[..i])
    {
      assert all[..i + 1][..i] == all[..i];
      var parsed := ParseLine(lines[i]);
      if parsed.Some? {
        vars := vars[parsed.value.0 := parsed.value.1];
      }
    }
    assert all[..|lines|] == all;
  }

  /** A variable is missing when it is absent, empty, or still a `your-` placeholder. */
  predicate IsMissing(vars: map<string, string>, name: string) {
    var value := if name in vars then vars[name] else "";
    value == "" || Strings.StartsWith(value, "your-")
  }

  /** The missing names of `required`, in the order of `required`. */
  function MissingOf(required: seq<string>, vars: map<string, string>): (r: seq<string>)
    ensures |r| <= |required|
    decreases |required|
  {
    if required == [] then []
    else
      var front := MissingOf(required[..|required| - 1], vars);
      var name := required[|required| - 1];
      if IsMissing(vars, name) then front + [name] else front
  }

  /** A name is reported exactly when it is required and missing. */
  lemma {:induction false} MissingOfExactly(required: seq<string>, vars: map<string, string>, name: string)
    ensures name in MissingOf(required, vars) <==> name in required && IsMissing(vars, name)
    decreases |required|
  {
    if required != [] {
      var front := required[..|required| - 1];
      MissingOfExactly(front, vars, name);
      assert required == front + [required[|required| - 1]];
    }
  }

  /** Checking two lists one after the other reports the missing names of each, in list order. */
  lemma {:induction false} MissingOfAppend(a: seq<string>, b: seq<string>, vars: map<string, string>)
    ensures MissingOf(a + b, vars) == MissingOf(a, vars) + MissingOf(b, vars)
    decreases |b|
  {
    if b == [] {
      assert a + b == a;
    } else {
      var front := b[..|b| - 1];
      assert (a + b)[..|a + b| - 1] == a + front;
      MissingOfAppend(a, front, vars);
    }
  }

  /** With no variables at all, every required name is reported, in order. */
  lemma {:induction false} NothingSetMissesAll(required: seq<string>)
    ensures MissingOf(required, map[]) == required
    decreases |required|
  {
    if required != [] {
      var front := required[..|required| - 1];
      NothingSetMissesAll(front);
      assert front + [required[|required| - 1]] == required;
    }
  }

  /** The required names: the common list, then the environment's own list when it has one. */
  function RequiredNames(envName: string): (r: seq<string>)
    ensures RequiredFor(envName).None? ==> r == RequiredForAll
    ensures RequiredFor(envName).Some? ==> r == RequiredForAll + RequiredFor(envName).value
  {
    match RequiredFor(envName)
    case None => RequiredForAll
    case Some(extra) => RequiredForAll + extra
  }

  /** `validate_required_vars`: valid exactly when nothing required is missing. */
  method ValidateRequiredVars(vars: map<string, string>, envName: string) returns (valid: bool, missing: seq<string>)
    ensures missing == MissingOf(RequiredNames(envName), vars)
    ensures valid <==> missing == []
  {
    var required := RequiredForAll;
    var extra := RequiredFor(envName);
    if extra.Some? {
      required := required + extra.value;
    }
    missing := [];
    for i := 0 to |required|
      invariant missing == MissingOf(required[..i], vars)
    {
      assert required[..i + 1][..i] == required[..i];
      var name := required[i];
      var value := if name in vars then vars[name] else "";
      if value == "" || Strings.StartsWith(value, "your-") {
        missing := missing + [name];
      }
    }
    assert required[..|required|] == required;
    valid := |missing| == 0;
  }
}
