/** The pre-deployment environment check: it loads `backend/.env` into the
    process environment, checks required and optional variables and a few
    production settings, and decides an exit code from the accumulated errors.
    The file system, the interpreter version and the process environment enter
    as a `Host` value; printing is left out. */
module EnvValidator {
  import opened Common

  // ---------------------------------------------------------------- stripping

  /** The characters `str.strip()` removes that lie in Latin-1. */
  predicate IsSpace(c: char)
  {
    c == ' ' || c == '\t' || c == '\n' || c == '\r' || c == '\U{000B}' || c == '\U{000C}'
    || c == '\U{001C}' || c == '\U{001D}' || c == '\U{001E}' || c == '\U{001F}' || c == '\U{0085}'
    || c == '\U{00A0}'
  }

  /** The number of leading whitespace characters. */
  function LeadCount(s: string): (n: nat)
    ensures n <= |s|
    ensures forall k :: 0 <= k < n ==> IsSpace(s[k])
    ensures n < |s| ==> !IsSpace(s[n])
  {
    if s == [] || !IsSpace(s[0]) then 0 else 1 + LeadCount(s[1..])
  }

  /** The number of trailing whitespace characters. */
  function TrailCount(s: string): (n: nat)
    ensures n <= |s|
    ensures forall k :: |s| - n <= k < |s| ==> IsSpace(s[k])
    ensures n < |s| ==> !IsSpace(s[|s| - n - 1])
  {
    if s == [] || !IsSpace(s[|s| - 1]) then 0 else 1 + TrailCount(s[..|s| - 1])
  }

  /** `str.strip()`: the slice between the leading and the trailing whitespace. */
  function Strip(s: string): (r: string)
    ensures r == [] || (!IsSpace(r[0]) && !IsSpace(r[|r| - 1]))
    ensures LeadCount(s) + |r| <= |s|
    ensures r == s[LeadCount(s)..LeadCount(s) + |r|]
    ensures forall k :: LeadCount(s) + |r| <= k < |s| ==> IsSpace(s[k])
  {
    var t := s[LeadCount(s)..];
    t[..|t| - TrailCount(t)]
  }

  /** A string without surrounding whitespace is its own strip. */
  lemma StripNoOp(s: string)
    requires s == [] || (!IsSpace(s[0]) && !IsSpace(s[|s| - 1]))
    ensures Strip(s) == s
  {
    if s != [] {
      assert LeadCount(s) == 0;
      assert TrailCount(s) == 0;
    }
  }

  // ---------------------------------------------------------------- the .env file

  /** One `.env` line: skipped when it is blank after stripping, a comment, or has
      no '='; otherwise split at its first '=' into key and value. */
  function ParseLine(line: string): (r: Option<(string, string)>)
    ensures r.Some? <==> Strip(line) != [] && Strip(line)[0] != '#' && '=' in Strip(line)
    ensures r.Some? ==> Strip(line) == r.value.0 + "=" + r.value.1 && '=' !in r.value.0
  {
    var t := Strip(line);
    if t == [] || t[0] == '#' || '=' !in t then None
    else
      var i := FirstIndex(t, '=');
      assert t == t[..i] + "=" + t[i + 1..];
      Some((t[..i], t[i + 1..]))
  }

  /** Writing `key=value` and reading it back gives the same pair, for a key
      without '=' that does not start with '#' or whitespace and a value that
      does not end with whitespace. */
  lemma ParseLineRoundTrip(key: string, value: string)
    requires key != [] && '=' !in key && key[0] != '#' && !IsSpace(key[0])
    requires value == [] || !IsSpace(value[|value| - 1])
    ensures ParseLine(key + "=" + value) == Some((key, value))
  {
    var line := key + "=" + value;
    assert line[0] == key[0];
    assert line[|line| - 1] == if value == [] then '=' else value[|value| - 1];
    StripNoOp(line);
    assert line[|key|] == '=';
    var i := FirstIndex(line, '=');
    assert line[..i] == key;
    assert line[i + 1..] == value;
  }

  /** `os.environ[key] = value` refuses an empty name (a line starting with '='),
      which stops the script with an uncaught error: None. */
  function ApplyLine(env: map<string, string>, line: string): (r: Option<map<string, string>>)
    ensures ParseLine(line).None? ==> r == Some(env)
    ensures ParseLine(line).Some? && ParseLine(line).value.0 == "" ==> r == None
    ensures ParseLine(line).Some? && ParseLine(line).value.0 != "" ==>
      r == Some(env[ParseLine(line).value.0 := ParseLine(line).value.1])
  {
    match ParseLine(line)
    case None => Some(env)
    case Some(kv) => if kv.0 == "" then None else Some(env[kv.0 := kv.1])
  }

  /** The environment after loading the given lines in order, or None once a line
      has stopped the script. */
  function ApplyLines(env: map<string, string>, lines: seq<string>): Option<map<string, string>>
  {
    if lines == [] then Some(env)
    else
      match ApplyLines(env, lines[..|lines| - 1])
      case None => None
      case Some(e) => ApplyLine(e, lines[|lines| - 1])
  }

  /** Once a line has stopped the script, later lines change nothing. */
  lemma {:induction false} StopIsFinal(env: map<string, string>, lines: seq<string>, k: nat)
    requires k <= |lines| && ApplyLines(env, lines[..k]) == None
    ensures ApplyLines(env, lines) == None
    decreases |lines| - k
  {
    if k < |lines| {
      assert lines[..k + 1][..k] == lines[..k];
      StopIsFinal(env, lines, k + 1);
    } else {
      assert lines[..k] == lines;
    }
  }

  /** The loading loop of `main`. */
  method LoadEnv(environ: map<string, string>, lines: seq<string>) returns (r: Option<map<string, string>>)
    ensures r == ApplyLines(environ, lines)
  {
    var env := environ;
    var k := 0;
    while k < |lines|
      invariant 0 <= k <= |lines|
      invariant ApplyLines(environ, lines[..k]) == Some(env)
    {
      assert lines[..k + 1][..k] == lines[..k];
      var kv := ParseLine(lines[k]);
      if kv.Some? {
        if kv.value.0 == "" {
          StopIsFinal(environ, lines, k + 1);
          return None;
        }
        env := env[kv.value.0 := kv.value.1];
      }
      k := k + 1;
    }
    assert lines[..k] == lines;
    return Some(env);
  }

  /** The line is loaded as a setting of `key`. */
  predicate SetsKey(line: string, key: string)
  {
    ParseLine(line).Some? && ParseLine(line).value.0 == key
  }

  /** A line that does not set `key` leaves it as it was. */
  lemma ApplyLineKeeps(e: map<string, string>, line: string, key: string)
    requires !SetsKey(line, key)
    requires ApplyLine(e, line).Some?
    ensures (key in ApplyLine(e, line).value) == (key in e)
    ensures key in e ==> ApplyLine(e, line).value[key] == e[key]
  {
  }

  /** Loading a non-empty list of lines is loading all but the last, then the last. */
  lemma ApplyLinesLast(env: map<string, string>, lines: seq<string>)
    requires lines != [] && ApplyLines(env, lines).Some?
    ensures ApplyLines(env, lines[..|lines| - 1]).Some?
    ensures ApplyLines(env, lines) == ApplyLine(ApplyLines(env, lines[..|lines| - 1]).value, lines[|lines| - 1])
  {
  }

  /** The line that last sets a key decides its value. */
  lemma {:induction false} LastLineWins(env: map<string, string>, lines: seq<string>, i: nat, key: string, value: string)
    requires i < |lines| && ParseLine(lines[i]) == Some((key, value)) && key != ""
    requires forall j :: i < j < |lines| ==> !SetsKey(lines[j], key)
    requires ApplyLines(env, lines).Some?
    ensures key in ApplyLines(env, lines).value && ApplyLines(env, lines).value[key] == value
  {
    var n := |lines| - 1;
    var init := lines[..n];
    ApplyLinesLast(env, lines);
    if i < n {
      assert forall j :: i < j < |init| ==> init[j] == lines[j];
      assert init[i] == lines[i];
      LastLineWins(env, init, i, key, value);
      ApplyLineKeeps(ApplyLines(env, init).value, lines[n], key);
    }
  }

  /** A key no line sets keeps its value from the process environment. */
  lemma {:induction false} UnsetKeyKept(env: map<string, string>, lines: seq<string>, key: string)
    requires forall j :: 0 <= j < |lines| ==> !SetsKey(lines[j], key)
    requires ApplyLines(env, lines).Some?
    ensures (key in ApplyLines(env, lines).value) == (key in env)
    ensures key in env ==> ApplyLines(env, lines).value[key] == env[key]
  {
    if lines != [] {
      var init := lines[..|lines| - 1];
      ApplyLinesLast(env, lines);
      assert forall j :: 0 <= j < |init| ==> init[j] == lines[j];
      UnsetKeyKept(env, init, key);
      ApplyLineKeeps(ApplyLines(env, init).value, lines[|lines| - 1], key);
    }
  }

  // ---------------------------------------------------------------- variables

  /** A variable counts as set when it is present and non-empty. */
  predicate IsSet(env: map<string, string>, name: string)
  {
    name in env && env[name] != ""
  }

  /** `check_env_variable` as written: an unset variable yields `required`, so a
      missing REQUIRED variable reports success. */
  function CheckEnvVariableAsWritten(env: map<string, string>, name: string, required: bool): (r: bool)
    ensures IsSet(env, name) ==> r
    ensures !IsSet(env, name) ==> r == required
  {
    if IsSet(env, name) then true else required
  }

  /** `check_env_variable` as its callers use it: True exactly when the variable is set. */
  function CheckEnvVariable(env: map<string, string>, name: string, required: bool): (r: bool)
    ensures r <==> IsSet(env, name)
  {
    if IsSet(env, name) then true else false
  }

  /** The two versions differ exactly on unset required variables. */
  lemma CheckVersionsDiffer(env: map<string, string>, name: string, required: bool)
    ensures CheckEnvVariableAsWritten(env, name, required) != CheckEnvVariable(env, name, required)
        <==> required && !IsSet(env, name)
  {
  }

  datatype Checker = AsWritten | Corrected

  function Check(c: Checker, env: map<string, string>, name: string, required: bool): bool
  {
    match c
    case AsWritten => CheckEnvVariableAsWritten(env, name, required)
    case Corrected => CheckEnvVariable(env, name, required)
  }

  const FilesToCheck: seq<string> := ["backend/requirements.txt", "backend/manage.py", "backend/config/settings.py",
                                       "backend/config/wsgi.py", "package.json", "tailwind.config.js"]
  const RequiredVars: seq<string> := ["DEBUG", "SECRET_KEY", "ALLOWED_HOSTS", "DB_NAME", "DB_USER", "DB_PASSWORD"]
  const OptionalVars: seq<string> := ["EMAIL_HOST", "EMAIL_HOST_USER", "EMAIL_HOST_PASSWORD",
                                       "STRIPE_PUBLIC_KEY", "STRIPE_SECRET_KEY", "STRIPE_WEBHOOK_SECRET"]
  const DirsToCheck: seq<string> := ["backend/apps/core", "backend/apps/tours", "backend/apps/blog",
                                      "backend/apps/bookings", "backend/templates", "backend/static",
                                      "css", "js", "img", "fonts"]

  /** One message `prefix + item` per item that fails, in the items' order. */
  function Flagged(items: seq<string>, bad: string -> bool, prefix: string): (r: seq<string>)
    ensures |r| <= |items|
  {
    if items == [] then []
    else
      var n := |items| - 1;
      Flagged(items[..n], bad, prefix) + (if bad(items[n]) then [prefix + items[n]] else [])
  }

  /** The messages are exactly those of the failing items; none when no item fails. */
  lemma {:induction false} FlaggedMembers(items: seq<string>, bad: string -> bool, prefix: string)
    ensures Flagged(items, bad, prefix) == [] <==> forall i :: 0 <= i < |items| ==> !bad(items[i])
    ensures forall i :: 0 <= i < |items| && bad(items[i]) ==> prefix + items[i] in Flagged(items, bad, prefix)
    ensures forall m :: m in Flagged(items, bad, prefix) ==>
      exists i :: 0 <= i < |items| && bad(items[i]) && m == prefix + items[i]
  {
    if items != [] {
      var n := |items| - 1;
      var init := items[..n];
      var last := if bad(items[n]) then [prefix + items[n]] else [];
      FlaggedMembers(init, bad, prefix);
      assert Flagged(items, bad, prefix) == Flagged(init, bad, prefix) + last;
      assert forall i :: 0 <= i < n ==> init[i] == items[i];
      forall m | m in Flagged(items, bad, prefix)
        ensures exists i :: 0 <= i < |items| && bad(items[i]) && m == prefix + items[i]
      {
        if m !in Flagged(init, bad, prefix) {
          assert bad(items[n]) && m == prefix + items[n];
        }
      }
    }
  }

  /** The loops of `main` that append one message per failing item. */
  method AppendFlagged(acc: seq<string>, items: seq<string>, bad: string -> bool, prefix: string)
    returns (r: seq<string>)
    ensures r == acc + Flagged(items, bad, prefix)
  {
    r := acc;
    var k := 0;
    while k < |items|
      invariant 0 <= k <= |items|
      invariant r == acc + Flagged(items[..k], bad, prefix)
    {
      assert items[..k + 1][..k] == items[..k];
      if bad(items[k]) {
        r := r + [prefix + items[k]];
      }
      k := k + 1;
    }
    assert items[..k] == items;
  }

  // ---------------------------------------------------------------- main

  /** What the script finds on the machine: the interpreter version check, the
      existing files and directories, the `.env` lines when the file exists, and
      the process environment before loading. */
  datatype Host = Host(
    pythonAtLeast311: bool, files: set<string>, dirs: set<string>,
    envFile: Option<seq<string>>, environ: map<string, string>)

  datatype Outcome =
    | Finished(errors: seq<string>, warnings: seq<string>, exitCode: int)
    | Stopped   // an uncaught error while loading `.env`; the interpreter exits with status 1

  /** The production-setting warnings on the loaded environment. */
  function SettingWarnings(env: map<string, string>): (r: seq<string>)
    ensures "DEBUG should be False in production" in r <==> Lower(Get(env, "DEBUG", "True")) !in {"false", "0", "no"}
    ensures "ALLOWED_HOSTS contains localhost" in r
        <==> Contains(Get(env, "ALLOWED_HOSTS", ""), "localhost") || Contains(Get(env, "ALLOWED_HOSTS", ""), "127.0.0.1")
  {
    (if Lower(Get(env, "DEBUG", "True")) in {"false", "0", "no"} then [] else ["DEBUG should be False in production"])
    + (if Contains(Get(env, "ALLOWED_HOSTS", ""), "localhost") || Contains(Get(env, "ALLOWED_HOSTS", ""), "127.0.0.1")
       then ["ALLOWED_HOSTS contains localhost"] else [])
  }

  /** The failure tests of the four checking loops. */
  function FileMissing(h: Host): string -> bool { (p: string) => p !in h.files }

  function DirMissing(h: Host): string -> bool { (d: string) => d !in h.dirs }

  function RequiredUnset(c: Checker, env: map<string, string>): string -> bool
  {
    (n: string) => !Check(c, env, n, true)
  }

  function OptionalUnset(c: Checker, env: map<string, string>): string -> bool
  {
    (n: string) => !Check(c, env, n, false)
  }

  /** The errors found before the variables are checked. */
  function EarlyErrors(h: Host): seq<string>
  {
    (if h.pythonAtLeast311 then [] else ["Python version"])
    + Flagged(FilesToCheck, FileMissing(h), "Missing file: ")
    + (if h.envFile.None? then ["Missing .env file"] else [])
  }

  /** The errors `main` accumulates, in order, once the environment is loaded. */
  function Errors(h: Host, c: Checker, env: map<string, string>): seq<string>
  {
    EarlyErrors(h)
    + Flagged(RequiredVars, RequiredUnset(c, env), "Missing required variable: ")
    + (if |Get(env, "SECRET_KEY", "")| >= 50 then [] else ["Weak SECRET_KEY"])
    + Flagged(DirsToCheck, DirMissing(h), "Missing directory: ")
  }

  function Warnings(c: Checker, env: map<string, string>): seq<string>
  {
    Flagged(OptionalVars, OptionalUnset(c, env), "Optional variable not set: ")
    + SettingWarnings(env)
  }

  /** The environment the checks read: the process environment, with `.env` loaded
      over it when the file exists. */
  function Loaded(h: Host): Option<map<string, string>>
  {
    if h.envFile.Some? then ApplyLines(h.environ, h.envFile.value) else Some(h.environ)
  }

  /** `main`, as a function of the host and of the variable check in use. */
  function Run(h: Host, c: Checker): (r: Outcome)
    ensures r.Stopped? <==> Loaded(h).None?
    ensures r.Finished? ==> (r.exitCode == 0 <==> r.errors == []) && (r.exitCode == 0 || r.exitCode == 1)
  {
    match Loaded(h)
    case None => Stopped
    case Some(env) =>
      var errs := Errors(h, c, env);
      Finished(errs, Warnings(c, env), if errs == [] then 0 else 1)
  }

  /** `main` step by step: each section appends its messages in turn. */
  method Validate(h: Host, c: Checker) returns (r: Outcome)
    ensures r == Run(h, c)
  {
    var errors: seq<string> := [];
    var warnings: seq<string> := [];
    if !h.pythonAtLeast311 {
      errors := errors + ["Python version"];
    }
    errors := AppendFlagged(errors, FilesToCheck, FileMissing(h), "Missing file: ");
    var env := h.environ;
    if h.envFile.Some? {
      var loaded := LoadEnv(h.environ, h.envFile.value);
      if loaded.None? {
        return Stopped;
      }
      env := loaded.value;
    } else {
      errors := errors + ["Missing .env file"];
    }
    assert errors == EarlyErrors(h);
    assert Loaded(h) == Some(env);
    var early := errors;
    errors := CheckVariables(h, c, env, early);
    warnings := CollectWarnings(c, env);
    r := Finished(errors, warnings, if errors == [] then 0 else 1);
  }

  /** The errors of `main` after loading: required variables, the secret key's
      length, directories. */
  method CheckVariables(h: Host, c: Checker, env: map<string, string>, early: seq<string>)
    returns (errors: seq<string>)
    ensures errors == early + Flagged(RequiredVars, RequiredUnset(c, env), "Missing required variable: ")
                     + (if |Get(env, "SECRET_KEY", "")| >= 50 then [] else ["Weak SECRET_KEY"])
                     + Flagged(DirsToCheck, DirMissing(h), "Missing directory: ")
  {
    errors := AppendFlagged(early, RequiredVars, RequiredUnset(c, env), "Missing required variable: ");
    if |Get(env, "SECRET_KEY", "")| < 50 {
      errors := errors + ["Weak SECRET_KEY"];
    }
    errors := AppendFlagged(errors, DirsToCheck, DirMissing(h), "Missing directory: ");
  }

  /** The warnings of `main`: optional variables, then the production settings. */
  method CollectWarnings(c: Checker, env: map<string, string>) returns (warnings: seq<string>)
    ensures warnings == Warnings(c, env)
  {
    warnings := AppendFlagged([], OptionalVars, OptionalUnset(c, env), "Optional variable not set: ");
    warnings := warnings + SettingWarnings(env);
  }

  // ---------------------------------------------------------------- properties

  /** As written, a missing required variable is never reported: the check tells
      its caller the variable is fine, so unsetting any required variable other
      than SECRET_KEY leaves the errors, and the exit code, as they were. */
  lemma MissingRequiredUnreported(h: Host, env: map<string, string>, name: string)
    requires name != "SECRET_KEY"
    ensures Flagged(RequiredVars, RequiredUnset(AsWritten, env), "Missing required variable: ") == []
    ensures Errors(h, AsWritten, env - {name}) == Errors(h, AsWritten, env)
  {
    FlaggedMembers(RequiredVars, RequiredUnset(AsWritten, env), "Missing required variable: ");
    FlaggedMembers(RequiredVars, RequiredUnset(AsWritten, env - {name}), "Missing required variable: ");
    assert Flagged(RequiredVars, RequiredUnset(AsWritten, env - {name}), "Missing required variable: ") == [];
    assert Get(env - {name}, "SECRET_KEY", "") == Get(env, "SECRET_KEY", "");
  }

  /** With the corrected check, each unset required variable is an error and makes
      the script fail. */
  lemma MissingRequiredReported(h: Host, name: string)
    requires name in RequiredVars && Loaded(h).Some? && !IsSet(Loaded(h).value, name)
    ensures "Missing required variable: " + name in Errors(h, Corrected, Loaded(h).value)
    ensures Run(h, Corrected).exitCode == 1
  {
    var env := Loaded(h).value;
    var i :| 0 <= i < |RequiredVars| && RequiredVars[i] == name;
    assert RequiredUnset(Corrected, env)(RequiredVars[i]);
    FlaggedMembers(RequiredVars, RequiredUnset(Corrected, env), "Missing required variable: ");
  }

  /** Every unset optional variable is a warning, under either check. */
  lemma MissingOptionalWarned(h: Host, c: Checker, name: string)
    requires name in OptionalVars && Loaded(h).Some? && !IsSet(Loaded(h).value, name)
    ensures "Optional variable not set: " + name in Run(h, c).warnings
  {
    var i :| 0 <= i < |OptionalVars| && OptionalVars[i] == name;
    var env := Loaded(h).value;
    assert OptionalUnset(c, env)(OptionalVars[i]);
    FlaggedMembers(OptionalVars, OptionalUnset(c, env), "Optional variable not set: ");
  }

  /** Warnings alone never fail the script. */
  lemma WarningsDoNotFail(h: Host, c: Checker)
    requires Run(h, c).Finished?
    ensures Run(h, c).exitCode == 0 <==> Run(h, c).errors == []
  {
  }

  /** An unset DEBUG reads as "True" and draws the warning; "False", "0" and "no"
      in any letter case do not. */
  lemma DebugWarning(env: map<string, string>)
    ensures "DEBUG" !in env ==> "DEBUG should be False in production" in SettingWarnings(env)
    ensures Get(env, "DEBUG", "True") == "FALSE" ==> "DEBUG should be False in production" !in SettingWarnings(env)
  {
    assert Lower("True") == "true";
    assert Lower("FALSE") == "false";
  }

  /** A short secret key is an error whatever else holds. */
  lemma WeakSecretKeyFails(h: Host, c: Checker)
    requires Loaded(h).Some? && |Get(Loaded(h).value, "SECRET_KEY", "")| < 50
    ensures "Weak SECRET_KEY" in Run(h, c).errors && Run(h, c).exitCode == 1
  {
  }

  /** A host with every file and directory, and a `.env` that sets everything
      but DB_NAME. */
  function HostWithoutDbName(): Host
  {
    Host(true, (set p | p in FilesToCheck), (set d | d in DirsToCheck), Some([]),
         map["DEBUG" := "False", "SECRET_KEY" := "abcdefghijabcdefghijabcdefghijabcdefghijabcdefghij",
             "ALLOWED_HOSTS" := "example.com", "DB_USER" := "app", "DB_PASSWORD" := "pw"])
  }

  /** The discrepancy on that host: as written the script passes (exit 0) although
      a required variable is missing; the corrected check fails it (exit 1). */
  lemma MissingDbNamePasses()
    ensures Run(HostWithoutDbName(), AsWritten).exitCode == 0
    ensures Run(HostWithoutDbName(), Corrected).exitCode == 1
  {
    var h := HostWithoutDbName();
    var env := h.environ;
    assert Loaded(h) == Some(env);
    FlaggedMembers(FilesToCheck, FileMissing(h), "Missing file: ");
    FlaggedMembers(DirsToCheck, DirMissing(h), "Missing directory: ");
    FlaggedMembers(RequiredVars, RequiredUnset(AsWritten, env), "Missing required variable: ");
    assert |env["SECRET_KEY"]| == 50;
    assert Errors(h, AsWritten, env) == [];
    MissingRequiredReported(h, "DB_NAME");
  }
}
