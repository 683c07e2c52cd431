/**
 * The `bash` tool: which commands may run without a password, how a timeout is chosen, how
 * long output is cut, which working directories are allowed, and the order of the checks
 * `execute` makes before a command runs. Paths are sequences of components below the root,
 * already resolved; tokenising a command with `shlex.split`, resolving a directory on the
 * file system and running the shell are oracles.
 */
module BashTool {
  import opened Base
  import opened Text
  import opened Json
  import opened Tools

  /** A resolved absolute path as its components: `/` is `[]`, `/srv/app` is `["srv", "app"]`. */
  type Path = seq<string>

  /** The configuration a `BashTool` is built with. */
  datatype Config = Config(defaultCwd: Path, maxTimeoutSec: int, maxOutputChars: int,
                           safeCommands: set<string>, allowedWorkdirs: seq<Path>)

  const Name: string := "bash"
  const Description: string := "Run a bash command and return stdout/stderr with exit code"

  /** `input_schema` */
  function InputSchema(maxTimeoutSec: int): Json
  {
    JMap([Field("type", JStr("object")), Field("required", JList([JStr("cmd")])),
          Field("properties", JMap([
            Field("cmd", JMap([Field("type", JStr("string"))])),
            Field("cwd", JMap([Field("type", JStr("string"))])),
            Field("timeout_sec", JMap([Field("type", JStr("integer")), Field("minimum", JInt(1)), Field("maximum", JInt(maxTimeoutSec))])),
            Field("trusted", JMap([Field("type", JStr("boolean"))]))]))])
  }

  /** The safe-command set: each name stripped and lower-cased, blank ones dropped. */
  function SafeSet(commands: seq<string>): set<string>
  {
    set c | c in commands && Strip(c) != "" :: Lower(Strip(c))
  }

  /** The safe set holds exactly the normalised non-blank names, and each is non-empty, stripped
      and lower case. */
  lemma SafeSetSpec(commands: seq<string>, x: string)
    ensures x in SafeSet(commands) <==> exists c :: c in commands && Strip(c) != "" && x == Lower(Strip(c))
    ensures x in SafeSet(commands) ==> x != "" && Strip(x) == x && Lower(x) == x
  {
    if x in SafeSet(commands) {
      var c :| c in commands && Strip(c) != "" && x == Lower(Strip(c));
      LowerStrip(Strip(c));
      StripIdempotent(c);
      LowerIdempotent(Strip(c));
    }
  }

  /** `BashTool(...)`: with no list of allowed directories, or an empty one, only the default
      directory is allowed. */
  function MakeConfig(defaultCwd: Path, maxTimeoutSec: int, maxOutputChars: int,
                      safeCommands: Option<seq<string>>, allowedWorkdirs: Option<seq<Path>>): (cfg: Config)
    ensures cfg.allowedWorkdirs != []
    ensures allowedWorkdirs.Some? && allowedWorkdirs.value != [] ==> cfg.allowedWorkdirs == allowedWorkdirs.value
    ensures cfg.safeCommands == SafeSet(if safeCommands.Some? then safeCommands.value else [])
  {
    var workdirs := if allowedWorkdirs.Some? && allowedWorkdirs.value != [] then allowedWorkdirs.value else [defaultCwd];
    Config(defaultCwd, maxTimeoutSec, maxOutputChars, SafeSet(safeCommands.GetOr([])), workdirs)
  }

  // Output truncation

  const TruncatedSuffix: string := "\n...[truncated]"

  /** `_truncate`: the text and whether it was cut. */
  function Truncate(text: string, maxChars: int): (r: (string, bool))
    ensures r.1 <==> |text| > maxChars
    ensures !r.1 ==> r.0 == text
  {
    if |text| <= maxChars then (text, false)
    else
      var cut := if maxChars - |TruncatedSuffix| > 0 then maxChars - |TruncatedSuffix| else 0;
      (text[..cut] + TruncatedSuffix, true)
  }

  /** Text that fits is kept; longer text becomes its first `max(0, max - 15)` characters and
      the marker, which for a limit of at least 15 is no longer than the limit. */
  lemma TruncateSpec(text: string, maxChars: int)
    ensures var (out, cut) := Truncate(text, maxChars);
      (cut <==> |text| > maxChars)
      && (!cut ==> out == text)
      && (cut ==> var n := if maxChars > 15 then maxChars - 15 else 0;
                  n <= |text| && out == text[..n] + "\n...[truncated]")
      && (maxChars >= 15 ==> |out| <= maxChars)
  {
    assert |TruncatedSuffix| == 15;
  }

  // Timeouts

  /** `_resolve_timeout`: the context's timeout wins over the input's. */
  function ResolveTimeout(input: Json, ctxTimeout: Option<int>, maxTimeoutSec: int): (r: Result<int, ToolError>)
    ensures r.Ok? ==> r.value <= maxTimeoutSec
    ensures r.Ok? && (ctxTimeout.Some? || !input.JNull?) ==> 1 <= r.value
  {
    TimeoutOf(if ctxTimeout.Some? then JInt(ctxTimeout.value) else input, maxTimeoutSec)
  }

  /** The checks on the chosen timeout: none gives `min(15, max)`, anything else must read as
      a whole number. */
  function TimeoutOf(value: Json, maxTimeoutSec: int): (r: Result<int, ToolError>)
    ensures !value.JNull? ==> (r.Ok? <==> PyInt(value).Some? && 1 <= PyInt(value).value <= maxTimeoutSec)
    ensures !value.JNull? && r.Ok? ==> r.value == PyInt(value).value
  {
    if value.JNull? then Ok(if 15 < maxTimeoutSec then 15 else maxTimeoutSec)
    else TimeoutChecked(PyInt(value), maxTimeoutSec)
  }

  /** A timeout that reads as a number is accepted iff it lies in `[1, max]`. */
  function TimeoutChecked(parsed: Option<int>, maxTimeoutSec: int): (r: Result<int, ToolError>)
    ensures r.Ok? <==> parsed.Some? && 1 <= parsed.value <= maxTimeoutSec
    ensures r.Ok? ==> r.value == parsed.value
  {
    match parsed
    case None => Err(ValidationError("timeout_sec must be an integer"))
    case Some(t) =>
      if t <= 0 then Err(ValidationError("timeout_sec must be > 0"))
      else if t > maxTimeoutSec then Err(ValidationError("timeout_sec cannot exceed " + IntToString(maxTimeoutSec)))
      else Ok(t)
  }

  /** A timeout from the context makes the input's irrelevant, and it is accepted iff it lies
      in `[1, max]`. */
  lemma TimeoutContextWins(input: Json, other: Json, ctxTimeout: int, maxTimeoutSec: int)
    ensures ResolveTimeout(input, Some(ctxTimeout), maxTimeoutSec) == ResolveTimeout(other, Some(ctxTimeout), maxTimeoutSec)
    ensures ResolveTimeout(input, Some(ctxTimeout), maxTimeoutSec).Ok? <==> 1 <= ctxTimeout <= maxTimeoutSec
  {
    assert PyInt(JInt(ctxTimeout)) == Some(ctxTimeout);
  }

  /** A missing timeout is `min(15, max)`; a given one that is accepted lies in `[1, max]`. */
  lemma TimeoutRange(value: Json, maxTimeoutSec: int)
    ensures value.JNull? ==> TimeoutOf(value, maxTimeoutSec) == Ok(if maxTimeoutSec < 15 then maxTimeoutSec else 15)
    ensures var r := TimeoutOf(value, maxTimeoutSec);
      r.Ok? && !value.JNull? ==> 1 <= r.value <= maxTimeoutSec
  {
  }

  /** A timeout written as a decimal string is read as that number. */
  lemma TimeoutFromString(n: nat, maxTimeoutSec: int)
    ensures ResolveTimeout(JStr(NatToString(n)), None, maxTimeoutSec) == ResolveTimeout(JInt(n), None, maxTimeoutSec)
  {
    PyIntRoundTrip(n);
  }

  // Command classification

  /** What follows the last `/`. */
  function LastSegment(s: string): (r: string)
    ensures '/' !in r
    ensures '/' !in s ==> r == s
  {
    if s == [] then []
    else if s[|s| - 1] == '/' then []
    else LastSegment(s[..|s| - 1]) + [s[|s| - 1]]
  }

  /** A path's text without trailing slashes and trailing `.` components. */
  function TrimTail(s: string): string
    decreases |s|
  {
    if s != [] && s[|s| - 1] == '/' then TrimTail(s[..|s| - 1])
    else if s == "." then ""
    else if |s| >= 2 && s[|s| - 2..] == "/." then TrimTail(s[..|s| - 2])
    else s
  }

  /** `Path(s).name` */
  function BaseName(s: string): string
  {
    LastSegment(TrimTail(s))
  }

  lemma {:induction false} LastSegmentAfter(dir: string, name: string)
    requires '/' !in name
    ensures LastSegment(dir + "/" + name) == name
    decreases |name|
  {
    if name == [] {
      assert (dir + "/" + name) == dir + "/";
    } else {
      var init := name[..|name| - 1];
      assert (dir + "/" + name)[..|dir + "/" + name| - 1] == dir + "/" + init;
      LastSegmentAfter(dir, init);
      assert name == init + [name[|name| - 1]];
    }
  }

  /** A plain command name is its own base name, and so is the last component of a path; no
      base name holds a `/`. */
  lemma BaseNameSpec(s: string, dir: string, name: string)
    ensures '/' !in BaseName(s)
    ensures '/' !in s && s != "." ==> BaseName(s) == s
    ensures '/' !in name && name != "" && name != "." ==> BaseName(dir + "/" + name) == name
  {
    if '/' !in s && s != "." && s != [] {
      assert s[|s| - 1] in s;
      if |s| >= 2 {
        assert s[|s| - 2] in s;
      }
    }
    if '/' !in name && name != "" && name != "." {
      var p := dir + "/" + name;
      assert p[|p| - 1] == name[|name| - 1] && name[|name| - 1] in name;
      if |name| == 1 {
        assert p[|p| - 2..] == "/" + name;
      } else {
        assert p[|p| - 2..] == name[|name| - 2..] && name[|name| - 2] in name;
      }
      assert TrimTail(p) == p;
      LastSegmentAfter(dir, name);
    }
  }

  /** The dictionary `command_security` returns. */
  datatype Security = Security(role: string, requiresPassword: bool, reason: string, executable: string)

  /** `command_security`, given what `shlex.split` makes of the command: its tokens, or the
      message of the ValueError it raised. */
  function CommandSecurity(tokens: Result<seq<string>, string>, safeCommands: set<string>): (r: Result<Security, ToolError>)
    ensures r.Err? <==> tokens == Ok([])
    ensures r.Ok? ==> (r.value.requiresPassword <==> r.value.role == "privileged")
  {
    match tokens
    case Err(_) => Ok(Security("privileged", true, "unparsable", ""))
    case Ok(args) =>
      if args == [] then Err(ValidationError("Command is empty"))
      else
        var executable := Lower(BaseName(args[0]));
        if executable in safeCommands then Ok(Security("safe", false, "safe_command", executable))
        else Ok(Security("privileged", true, "not_in_safe_list", executable))
  }

  /** Only a command whose lower-cased base name is in the safe set runs without a password;
      every other one, an unparsable one included, is privileged. An empty command is refused. */
  lemma SecuritySpec(tokens: Result<seq<string>, string>, safeCommands: set<string>)
    ensures CommandSecurity(tokens, safeCommands).Err? <==> tokens == Ok([])
    ensures var r := CommandSecurity(tokens, safeCommands);
      r.Ok? ==> ((r.value.requiresPassword <==> r.value.role == "privileged")
        && (!r.value.requiresPassword <==> tokens.Ok? && Lower(BaseName(tokens.value[0])) in safeCommands)
        && (tokens.Ok? ==> r.value.executable == Lower(BaseName(tokens.value[0])))
        && (tokens.Err? ==> r.value == Security("privileged", true, "unparsable", "")))
  {
  }

  // Working directories

  /** `path.parents`: the proper ancestors, nearest first. */
  function Parents(p: Path): (r: seq<Path>)
    ensures |r| == |p|
  {
    seq(|p|, i requires 0 <= i < |p| => p[..|p| - 1 - i])
  }

  /** `_is_within` */
  predicate IsWithin(path: Path, base: Path)
  {
    path == base || base in Parents(path)
  }

  /** A path is within a base exactly when the base is a prefix of its components. */
  lemma IsWithinPrefix(path: Path, base: Path)
    ensures IsWithin(path, base) <==> |base| <= |path| && path[..|base|] == base
  {
    if |base| < |path| && path[..|base|] == base {
      assert Parents(path)[|path| - 1 - |base|] == base;
    }
  }

  /** Being within is reflexive and transitive. */
  lemma IsWithinTransitive(a: Path, b: Path, c: Path)
    requires IsWithin(a, b) && IsWithin(b, c)
    ensures IsWithin(a, a) && IsWithin(a, c)
  {
    IsWithinPrefix(a, b);
    IsWithinPrefix(b, c);
    IsWithinPrefix(a, c);
    assert a[..|c|] == a[..|b|][..|c|];
  }

  predicate Allowed(cfg: Config, path: Path)
  {
    exists i :: 0 <= i < |cfg.allowedWorkdirs| && IsWithin(path, cfg.allowedWorkdirs[i])
  }

  /** `str(path)` */
  function PathString(p: Path): string
  {
    "/" + Join(p, "/")
  }

  /** The file-system part of resolving a directory: `expanduser`, joining a relative path to
      the base, `resolve`, and `exists() and is_dir()`. */
  type DirResolver = (Path, string) -> (Path, bool)

  /** The checks a resolved directory must pass. */
  function CheckedDir(cfg: Config, resolved: (Path, bool)): (r: Result<Path, ToolError>)
    ensures r.Ok? <==> resolved.1 && Allowed(cfg, resolved.0)
    ensures r.Ok? ==> r.value == resolved.0
  {
    var (path, isDir) := resolved;
    if !isDir then Err(ValidationError("Working directory not found: " + PathString(path)))
    else if !Allowed(cfg, path) then Err(ValidationError("Working directory is not allowed: " + PathString(path)))
    else Ok(path)
  }

  /** `_resolve_cwd`: no directory, or a blank one, is the default directory. */
  function ResolveCwd(cfg: Config, raw: Json, resolve: DirResolver): (r: Result<Path, ToolError>)
    ensures r.Ok? ==> r.value == cfg.defaultCwd || Allowed(cfg, r.value)
  {
    if raw.JNull? then Ok(cfg.defaultCwd)
    else
      var value := Strip(PyStr(raw));
      if value == "" then Ok(cfg.defaultCwd)
      else CheckedDir(cfg, resolve(cfg.defaultCwd, value))
  }

  /** `_resolve_cd_target`: `cd` alone goes home, `cd dir` is taken from the current directory. */
  function ResolveCdTarget(cfg: Config, cwd: Path, args: seq<string>, resolve: DirResolver): (r: Result<Path, ToolError>)
    requires args != []
    ensures r.Ok? ==> Allowed(cfg, r.value) && |args| <= 2
  {
    if |args| > 2 then Err(ValidationError("cd supports only one target directory"))
    else
      var rawTarget := if |args| == 1 then "~" else args[1];
      CheckedDir(cfg, resolve(cwd, rawTarget))
  }

  // execute

  /** What running the shell gave: the exit status and decoded output, or a timeout. */
  datatype Proc = Finished(returnCode: int, stdout: string, stderr: string, durationMs: int) | TimedOut

  /** `shlex.split`: the tokens, or the message of the ValueError it raises. */
  type Shlex = string -> Result<seq<string>, string>

  /** The outside world `execute` relies on. */
  datatype Env = Env(shlex: Shlex, resolve: DirResolver,
                     run: (string, Path, int) -> Proc)

  /** What the checks before the run settle: the command, its classification, the directory,
      the timeout and the tokens. */
  datatype Plan = Plan(cmd: string, security: Security, cwd: Path, timeout: int, args: seq<string>)

  function CommandOf(input: seq<Field>): string
  {
    Strip(PyStr(GetOr(input, "cmd", JStr(""))))
  }

  function TrustedOf(input: seq<Field>): bool
  {
    Truthy(GetOr(input, "trusted", JBool(false)))
  }

  const PasswordRequired: string := "Password confirmation is required for this command"

  /** The checks at the start of `execute`, in their order: an empty command, then the
      password demand, then the directory, the timeout and the tokens. */
  function Prepare(cfg: Config, input: seq<Field>, ctx: ToolContext, shlex: Shlex, resolve: DirResolver): (r: Result<Plan, ToolError>)
    ensures CommandOf(input) == "" ==> r == Err(ValidationError("Field 'cmd' cannot be empty"))
    ensures r.Ok? ==> r.value.cmd == CommandOf(input) && r.value.cmd != ""
                      && CommandSecurity(shlex(r.value.cmd), cfg.safeCommands) == Ok(r.value.security)
                      && (r.value.security.requiresPassword ==> TrustedOf(input))
                      && shlex(r.value.cmd) == Ok(r.value.args)
  {
    var cmd := CommandOf(input);
    if cmd == "" then Err(ValidationError("Field 'cmd' cannot be empty"))
    else
      match CommandSecurity(shlex(cmd), cfg.safeCommands)
      case Err(e) => Err(e)
      case Ok(security) =>
        if security.requiresPassword && !TrustedOf(input) then Err(AuthRequiredError(PasswordRequired))
        else PrepareRun(cfg, input, ctx, shlex, resolve, cmd, security)
  }

  function PrepareRun(cfg: Config, input: seq<Field>, ctx: ToolContext, shlex: Shlex, resolve: DirResolver,
                      cmd: string, security: Security): (r: Result<Plan, ToolError>)
    ensures r.Ok? ==> (r.value.cmd == cmd && r.value.security == security
      && (r.value.cwd == cfg.defaultCwd || Allowed(cfg, r.value.cwd))
      && ResolveTimeout(Get(input, "timeout_sec"), ctx.timeoutSec, cfg.maxTimeoutSec) == Ok(r.value.timeout)
      && shlex(cmd) == Ok(r.value.args))
  {
    match ResolveCwd(cfg, Get(input, "cwd"), resolve)
    case Err(e) => Err(e)
    case Ok(cwd) =>
      match ResolveTimeout(Get(input, "timeout_sec"), ctx.timeoutSec, cfg.maxTimeoutSec)
      case Err(e) => Err(e)
      case Ok(timeout) =>
        match shlex(cmd)
        case Err(message) => Err(ValidationError("Invalid shell command: " + message))
        case Ok(args) => Ok(Plan(cmd, security, cwd, timeout, args))
  }

  /** The `meta` dictionary of a result. */
  function Meta(durationMs: int, cwd: Path, timeout: int, truncatedStdout: bool, truncatedStderr: bool,
                security: Security, cwdChanged: bool): seq<Field>
  {
    [Field("duration_ms", JInt(durationMs)), Field("cwd", JStr(PathString(cwd))), Field("timeout_sec", JInt(timeout)),
     Field("truncated_stdout", JBool(truncatedStdout)), Field("truncated_stderr", JBool(truncatedStderr)),
     Field("role", JStr(security.role)), Field("requires_password", JBool(security.requiresPassword)),
     Field("executable", JStr(security.executable)), Field("cwd_changed", JBool(cwdChanged))]
  }

  predicate IsCd(args: seq<string>)
  {
    args != [] && Lower(BaseName(args[0])) == "cd"
  }

  /** `execute`: a `cd` only moves the working directory; any other command is run and its
      output cut to the limit. */
  function Execute(cfg: Config, input: seq<Field>, ctx: ToolContext, env: Env): (r: Result<ToolResult, ToolError>)
    ensures Prepare(cfg, input, ctx, env.shlex, env.resolve).Err? ==> r == Err(Prepare(cfg, input, ctx, env.shlex, env.resolve).error)
    ensures r.Ok? ==> (r.value.ok <==> r.value.exitCode == 0)
  {
    match Prepare(cfg, input, ctx, env.shlex, env.resolve)
    case Err(e) => Err(e)
    case Ok(plan) =>
      if IsCd(plan.args) then ChangeDir(cfg, plan, env.resolve)
      else
        var proc := env.run(plan.cmd, plan.cwd, plan.timeout);
        FinishSpec(cfg, plan, proc);
        Finish(cfg, plan, proc)
  }

  /** The `cd` branch: the new directory is reported in `meta`, nothing is run. */
  function ChangeDir(cfg: Config, plan: Plan, resolve: DirResolver): (r: Result<ToolResult, ToolError>)
    requires plan.args != []
    ensures r.Ok? <==> ResolveCdTarget(cfg, plan.cwd, plan.args, resolve).Ok?
    ensures r.Err? ==> r.error == ResolveCdTarget(cfg, plan.cwd, plan.args, resolve).error
    ensures r.Ok? ==> r.value.ok && r.value.exitCode == 0 && r.value.stdout == "" && r.value.stderr == ""
  {
    match ResolveCdTarget(cfg, plan.cwd, plan.args, resolve)
    case Err(e) => Err(e)
    case Ok(target) => Ok(ToolResult(true, "", "", 0, Meta(0, target, plan.timeout, false, false, plan.security, true)))
  }

  /** A run that timed out is a timeout error; a finished run reports its status and its
      output cut to the limit. */
  function Finish(cfg: Config, plan: Plan, proc: Proc): (r: Result<ToolResult, ToolError>)
    ensures proc.TimedOut? ==> r.Err? && r.error.TimeoutError?
    ensures proc.Finished? ==> r.Ok? && r.value.stdout == Truncate(proc.stdout, cfg.maxOutputChars).0
                               && r.value.stderr == Truncate(proc.stderr, cfg.maxOutputChars).0
  {
    match proc
    case TimedOut => Err(TimeoutError("Command timed out after " + IntToString(plan.timeout) + "s"))
    case Finished(code, stdout, stderr, durationMs) =>
      var (out, outCut) := Truncate(stdout, cfg.maxOutputChars);
      var (err, errCut) := Truncate(stderr, cfg.maxOutputChars);
      Ok(ToolResult(code == 0, out, err, code, Meta(durationMs, plan.cwd, plan.timeout, outCut, errCut, plan.security, false)))
  }

  /** The bash tool as the registry holds it. */
  function AsTool(cfg: Config, env: Env): (t: Tool)
    ensures t.name == Name
  {
    Tool(Name, Description, InputSchema(cfg.maxTimeoutSec), (input, ctx) => Execute(cfg, input, ctx, env))
  }

  /** An empty command is refused, and a command that needs a password is refused without
      one before any directory is looked at or anything runs: the answer does not depend on
      the file system or the shell. */
  lemma ExecuteGuards(cfg: Config, input: seq<Field>, ctx: ToolContext, env: Env, env': Env)
    requires env'.shlex == env.shlex
    ensures CommandOf(input) == "" ==> Execute(cfg, input, ctx, env) == Err(ValidationError("Field 'cmd' cannot be empty"))
    ensures var security := CommandSecurity(env.shlex(CommandOf(input)), cfg.safeCommands);
      CommandOf(input) != "" && security.Ok? && security.value.requiresPassword && !TrustedOf(input) ==>
        Execute(cfg, input, ctx, env) == Err(AuthRequiredError(PasswordRequired))
        && Execute(cfg, input, ctx, env') == Execute(cfg, input, ctx, env)
  {
  }

  /** Whatever a command runs with passed every check: it is not blank, its password demand is
      met, its directory is the default or allowed, and its timeout is the default or in range. */
  lemma PlanChecked(cfg: Config, input: seq<Field>, ctx: ToolContext, env: Env)
    requires Prepare(cfg, input, ctx, env.shlex, env.resolve).Ok?
    ensures var plan := Prepare(cfg, input, ctx, env.shlex, env.resolve).value;
      plan.cmd != "" && plan.cmd == CommandOf(input)
      && (plan.security.requiresPassword ==> TrustedOf(input))
      && (plan.cwd == cfg.defaultCwd || Allowed(cfg, plan.cwd))
      && (1 <= plan.timeout <= cfg.maxTimeoutSec || plan.timeout == if cfg.maxTimeoutSec < 15 then cfg.maxTimeoutSec else 15)
      && env.shlex(plan.cmd) == Ok(plan.args)
  {
    var cmd := CommandOf(input);
    var security := CommandSecurity(env.shlex(cmd), cfg.safeCommands).value;
    assert Prepare(cfg, input, ctx, env.shlex, env.resolve) == PrepareRun(cfg, input, ctx, env.shlex, env.resolve, cmd, security);
    var value := if ctx.timeoutSec.Some? then JInt(ctx.timeoutSec.value) else Get(input, "timeout_sec");
    TimeoutRange(value, cfg.maxTimeoutSec);
    assert ResolveTimeout(Get(input, "timeout_sec"), ctx.timeoutSec, cfg.maxTimeoutSec) == TimeoutOf(value, cfg.maxTimeoutSec);
  }

  /** A `cd` never runs the shell: its result is the same whatever running a command would do. */
  lemma CdDoesNotRun(cfg: Config, input: seq<Field>, ctx: ToolContext, env: Env, run': (string, Path, int) -> Proc)
    requires Prepare(cfg, input, ctx, env.shlex, env.resolve).Ok? && IsCd(Prepare(cfg, input, ctx, env.shlex, env.resolve).value.args)
    ensures Execute(cfg, input, ctx, env) == Execute(cfg, input, ctx, Env(env.shlex, env.resolve, run'))
  {
    var env' := Env(env.shlex, env.resolve, run');
    var plan := Prepare(cfg, input, ctx, env.shlex, env.resolve);
    assert Prepare(cfg, input, ctx, env'.shlex, env'.resolve) == plan;
    assert Execute(cfg, input, ctx, env') == ChangeDir(cfg, plan.value, env.resolve);
  }

  /** A finished run is `ok` exactly for exit status 0, and its output is within the limit when
      the limit is at least 15. */
  lemma FinishSpec(cfg: Config, plan: Plan, proc: Proc)
    ensures var r := Finish(cfg, plan, proc);
      r.Ok? <==> proc.Finished?
    ensures var r := Finish(cfg, plan, proc);
      r.Ok? ==> (r.value.ok <==> r.value.exitCode == 0) && r.value.exitCode == proc.returnCode
    ensures var r := Finish(cfg, plan, proc);
      r.Ok? && cfg.maxOutputChars >= 15 ==> |r.value.stdout| <= cfg.maxOutputChars && |r.value.stderr| <= cfg.maxOutputChars
  {
    if proc.Finished? {
      TruncateSpec(proc.stdout, cfg.maxOutputChars);
      TruncateSpec(proc.stderr, cfg.maxOutputChars);
    }
  }

  /** Every successful result is `ok` exactly for exit status 0, and its output is within the
      limit when the limit is at least 15. */
  lemma ExecuteResult(cfg: Config, input: seq<Field>, ctx: ToolContext, env: Env)
    ensures var r := Execute(cfg, input, ctx, env);
      r.Ok? && cfg.maxOutputChars >= 15 ==> |r.value.stdout| <= cfg.maxOutputChars && |r.value.stderr| <= cfg.maxOutputChars
    ensures var r := Execute(cfg, input, ctx, env);
      r.Ok? ==> (r.value.ok <==> r.value.exitCode == 0)
  {
    var plan := Prepare(cfg, input, ctx, env.shlex, env.resolve);
    if plan.Ok? && !IsCd(plan.value.args) {
      FinishSpec(cfg, plan.value, env.run(plan.value.cmd, plan.value.cwd, plan.value.timeout));
    }
  }
}
