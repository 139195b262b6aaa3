/** The three check handlers: run a command, run a bundled script (locally
    or uploaded to the remote host), and look up a mount point. Each turns
    what execute_command gives into the evidence the evaluation engine reads.
    The specification of each handler is a function from the mode it starts
    in to an effect (the evidence, the mode after it, the traffic). */
module CheckHandlers {
  import opened Py
  import opened Remote
  import opened Evidence
  import opened Execution
  import opened OutputHandler

  /** {stdout, stderr, exit_code} of a finished command, both texts stripped. */
  function StrippedEvidence(so: ShellOutput): EvidenceDict {
    FlatEvidence(Strip(so.stdout), Strip(so.stderr), so.returncode)
  }

  /** The {stdout: '', stderr, exit_code} dict a handler reports a failure with. */
  function FailureEvidence(stderr: string, exitCode: int): Output {
    Dict(FlatEvidence("", stderr, exitCode))
  }

  function WithValue<T, U>(e: Effect<T>, v: U): Effect<U> {
    Effect(v, e.mode, e.events, e.ran)
  }

  /** An effect that changes nothing. */
  function NoEffect<T>(m: Mode, v: T): Effect<T> {
    Effect(v, m, [], [])
  }

  lemma Associative<T>(a: seq<T>, b: seq<T>, c: seq<T>)
    ensures a + b + c == a + (b + c)
  {
  }

  // ---------------------------------------------------------------------------
  // command_output

  function CommandOutputEvidence(r: Result<ShellOutput>): Output {
    match r
    case Ok(so) => Dict(StrippedEvidence(so))
    case Raised(e) => FailureEvidence("ERROR: Command failed to execute. Reason: " + e.message, 127)
  }

  /** The target is run as a one-element argument list. */
  function CommandOutputEffect(m: Mode, local: LocalHost, target: string): (e: Effect<Output>)
    ensures Flat(e.value)
    ensures m.LocalMode? ==> e.mode == LocalMode && e.events == [] && e.ran == [Argv([PStr(target)])]
    ensures m.RemoteMode? ==> e.ran == [] && e.mode.RemoteMode? && e.mode.cfg == m.cfg
  {
    var e := CommandEffect(m, local, Argv([PStr(target)]));
    WithValue(e, CommandOutputEvidence(e.value))
  }

  method CommandOutputHandle(ctx: ExecutionContext, local: LocalHost, target: string)
    returns (out: Output)
    modifies local, ctx.runner
    ensures var e := CommandOutputEffect(old(ModeOf(ctx)), local, target);
            out == e.value && Applied(ctx, local, e)
  {
    var result := ExecuteCommand(ctx, local, Argv([PStr(target)]));
    out := CommandOutputEvidence(result);
  }

  // ---------------------------------------------------------------------------
  // execute_script

  function ScriptPath(local: LocalHost, name: string): string {
    local.absPath("functions/" + name)
  }

  /** Parameters that are not a list are replaced by no parameters. */
  function ScriptParams(params: PyValue): seq<PyValue> {
    if params.PList? then params.items else []
  }

  function LocalScriptCommand(path: string, ps: seq<PyValue>): Command {
    Argv([PStr("bash"), PStr(path)] + ps)
  }

  function LocalScriptEvidence(path: string, r: Result<ShellOutput>): Output {
    match r
    case Ok(so) => Dict(StrippedEvidence(so))
    case Raised(e) =>
      if e.kind == FileNotFoundError then
        FailureEvidence("ERROR: 'bash' or script '" + path + "' not found.", 1)
      else FailureEvidence("ERROR: An unexpected exception occurred: " + e.message, 1)
  }

  function LocalScriptEffect(local: LocalHost, path: string, ps: seq<PyValue>): (e: Effect<Output>)
    ensures e.mode == LocalMode && e.events == [] && e.ran == [LocalScriptCommand(path, ps)]
    ensures Flat(e.value)
    ensures local.run(LocalScriptCommand(path, ps)).Raised? ==> e.value.d.exitCode == Some(1)
  {
    var e := CommandEffect(LocalMode, local, LocalScriptCommand(path, ps));
    WithValue(e, LocalScriptEvidence(path, e.value))
  }

  /** The first eight characters of the random hex token. */
  function TokenPrefix(hex: string): string {
    if |hex| <= 8 then hex else hex[..8]
  }

  /** Where the script is put on the remote host. */
  function RemoteScriptPath(hex: string): string {
    "/tmp/audit_script_" + TokenPrefix(hex) + ".sh"
  }

  function RemoteScriptCommand(remotePath: string, ps: seq<PyValue>): Command {
    Argv([PStr("sudo"), PStr("bash"), PStr(remotePath)] + ps)
  }

  function RemoveCommand(remotePath: string): string {
    "sudo rm -f " + remotePath
  }

  function RemoteFailure(e: Exception): Output {
    FailureEvidence("ERROR: Remote script execution failed: " + e.message, 1)
  }

  /** remo_script from a given client state, with `hex` the random token:
      check the local file, read it, upload it, run it through sudo, and
      remove it whether or not the run raised. */
  function RemoScriptEffect(cfg: Config, client: ClientState, local: LocalHost, path: string,
                            ps: seq<PyValue>, hex: string): (e: Effect<Output>)
    ensures e.ran == [] && e.mode.RemoteMode? && e.mode.cfg == cfg
    ensures path !in local.existing ==> e.events == [] && e.mode == RemoteMode(cfg, client)
    ensures client != NoClient ==> e.mode == RemoteMode(cfg, client)
    ensures Flat(e.value)
  {
    var m := RemoteMode(cfg, client);
    if path !in local.existing then
      NoEffect(m, FailureEvidence("ERROR: Local script '" + path + "' not found.", 1))
    else match local.contents(path)
      case Raised(e) => NoEffect(m, RemoteFailure(e))
      case Ok(content) =>
        var remotePath := RemoteScriptPath(hex);
        var up := UploadScriptOutcome(cfg, client, content, remotePath);
        if !up.0 then
          Effect(FailureEvidence("ERROR: Failed to upload script to remote server.", 1), m, up.1, [])
        else
          var after := RunAndRemoveEffect(cfg, client, remotePath, ps);
          Effect(after.value, after.mode, up.1 + after.events, [])
  }

  /** The run of an uploaded script and its removal, which follows the run
      whether it returned or raised. */
  function RunAndRemoveEffect(cfg: Config, client: ClientState, remotePath: string,
                              ps: seq<PyValue>): (e: Effect<Output>)
    ensures e.ran == [] && e.mode.RemoteMode? && e.mode.cfg == cfg
    ensures client != NoClient ==> e.mode == RemoteMode(cfg, client)
    ensures |e.events| <= 2
    ensures Flat(e.value)
  {
    var run := RemoteExecOutcome(cfg, client, RemoteScriptCommand(remotePath, ps));
    var rm := RunOutcome(cfg, run.1, RemoveCommand(remotePath));
    Effect(RemoteRunEvidence(run.0), RemoteMode(cfg, rm.1), run.2 + rm.2, [])
  }

  function RemoteRunEvidence(r: Result<ShellOutput>): Output {
    match r
    case Ok(so) => Dict(StrippedEvidence(so))
    case Raised(e) => RemoteFailure(e)
  }

  /** handle of execute_script, from a given mode. */
  function ExecuteScriptEffect(m: Mode, local: LocalHost, name: string, params: PyValue,
                               hex: string): (e: Effect<Output>)
    ensures name == "" ==> e.mode == m && e.events == [] && e.ran == []
    ensures m.LocalMode? ==> e.mode == LocalMode && e.events == [] && |e.ran| == (if name == "" then 0 else 1)
    ensures m.RemoteMode? ==> e.ran == [] && e.mode.RemoteMode? && e.mode.cfg == m.cfg
  {
    if name == "" then NoEffect(m, FailureEvidence("ERROR: No script name provided.", 1))
    else
      var path := ScriptPath(local, name);
      match m
      case LocalMode => LocalScriptEffect(local, path, ScriptParams(params))
      case RemoteMode(cfg, client) => RemoScriptEffect(cfg, client, local, path, ScriptParams(params), hex)
  }

  method ExecuteScriptHandle(ctx: ExecutionContext, local: LocalHost, name: string,
                             params: PyValue, hex: string)
    returns (out: Output)
    modifies local, ctx.runner
    ensures var e := ExecuteScriptEffect(old(ModeOf(ctx)), local, name, params, hex);
            out == e.value && Applied(ctx, local, e)
  {
    if name == "" {
      return FailureEvidence("ERROR: No script name provided.", 1);
    }
    var path := ScriptPath(local, name);
    var ps := ScriptParams(params);
    if ctx.runner != null {
      out := RemoScript(ctx, local, path, ps, hex);
    } else {
      out := LocalScript(ctx, local, path, ps);
    }
  }

  /** local_script; handle calls it only when no runner is installed. */
  method LocalScript(ctx: ExecutionContext, local: LocalHost, path: string, ps: seq<PyValue>)
    returns (out: Output)
    requires ctx.runner == null
    modifies local
    ensures var e := LocalScriptEffect(local, path, ps);
            out == e.value && Applied(ctx, local, e)
  {
    var result := ExecuteCommand(ctx, local, LocalScriptCommand(path, ps));
    out := LocalScriptEvidence(path, result);
  }

  /** remo_script; handle calls it only when a runner is installed. */
  method RemoScript(ctx: ExecutionContext, local: LocalHost, path: string, ps: seq<PyValue>,
                    hex: string)
    returns (out: Output)
    requires ctx.runner != null
    modifies local, ctx.runner
    ensures var e := RemoScriptEffect(old(ctx.runner.cfg), old(ctx.runner.client), local, path, ps, hex);
            out == e.value && Applied(ctx, local, e)
  {
    if path !in local.existing {
      return FailureEvidence("ERROR: Local script '" + path + "' not found.", 1);
    }
    var read := local.contents(path);
    if read.Raised? {
      return RemoteFailure(read.exc);
    }
    var remotePath := RemoteScriptPath(hex);
    var executor := ctx.runner;
    ghost var cfg, client0, channel0 := executor.cfg, executor.client, executor.channel;
    var uploaded := executor.UploadScriptContent(read.value, remotePath);
    ghost var up := UploadScriptOutcome(cfg, client0, read.value, remotePath);
    assert uploaded == up.0 && executor.client == client0 && executor.channel == channel0 + up.1;
    if !uploaded {
      return FailureEvidence("ERROR: Failed to upload script to remote server.", 1);
    }
    out := RunAndRemove(ctx, local, remotePath, ps);
    ghost var after := RunAndRemoveEffect(cfg, client0, remotePath, ps);
    assert out == after.value && executor.channel == channel0 + up.1 + after.events;
    Associative(channel0, up.1, after.events);
  }

  /** The inner try of remo_script and its finally clause. */
  method RunAndRemove(ctx: ExecutionContext, local: LocalHost, remotePath: string,
                      ps: seq<PyValue>)
    returns (out: Output)
    requires ctx.runner != null
    modifies local, ctx.runner
    ensures var e := RunAndRemoveEffect(old(ctx.runner.cfg), old(ctx.runner.client), remotePath, ps);
            out == e.value && Applied(ctx, local, e)
  {
    var executor := ctx.runner;
    ghost var cfg, client0, channel0 := executor.cfg, executor.client, executor.channel;
    var result := ExecuteCommand(ctx, local, RemoteScriptCommand(remotePath, ps));
    ghost var run := RemoteExecOutcome(cfg, client0, RemoteScriptCommand(remotePath, ps));
    assert result == run.0 && executor.client == run.1 && executor.channel == channel0 + run.2;
    var cleanup := executor.RunCommand(RemoveCommand(remotePath));
    ghost var rm := RunOutcome(cfg, run.1, RemoveCommand(remotePath));
    assert executor.client == rm.1 && executor.channel == channel0 + run.2 + rm.2;
    out := RemoteRunEvidence(result);
    ghost var eff := RunAndRemoveEffect(cfg, client0, remotePath, ps);
    assert eff == Effect(out, RemoteMode(cfg, rm.1), run.2 + rm.2, []);
    assert ModeOf(ctx) == eff.mode;
    Associative(channel0, run.2, rm.2);
  }

  // ---------------------------------------------------------------------------
  // mount_point

  function MountPointCommand(target: string): Command {
    Argv([PStr("findmnt"), PStr("-kn"), PStr(target)])
  }

  /** The texts are stored under the keys `strdout` and `strderr`, so the
      `stdout` key the algorithms read is absent. */
  function MountPointOutput(r: Result<ShellOutput>): Output {
    match r
    case Ok(so) =>
      Dict(EvidenceDict(None, None, Some(so.returncode), None, false, PNone, [],
                        [("strdout", Strip(so.stdout)), ("strderr", Strip(so.stderr))]))
    case Raised(e) =>
      if e.kind == FileNotFoundError then Text("ERROR: 'findmnt' command not found.")
      else Text("ERROR: An unexpected exception occurred: " + e.message)
  }

  function MountPointEffect(m: Mode, local: LocalHost, target: string): (e: Effect<Output>)
    ensures target == "" ==> e.mode == m && e.events == [] && e.ran == [] && e.value.Text?
    ensures e.value.Dict? ==> e.value.d.stdout.None? && e.value.d.exitCode.Some?
    ensures m.LocalMode? && target != "" ==> e.ran == [MountPointCommand(target)]
  {
    if target == "" then NoEffect(m, Text("ERROR: Mount point target cannot be empty."))
    else
      var e := CommandEffect(m, local, MountPointCommand(target));
      WithValue(e, MountPointOutput(e.value))
  }

  method MountPointHandle(ctx: ExecutionContext, local: LocalHost, target: string)
    returns (out: Output)
    modifies local, ctx.runner
    ensures var e := MountPointEffect(old(ModeOf(ctx)), local, target);
            out == e.value && Applied(ctx, local, e)
  {
    if target == "" {
      return Text("ERROR: Mount point target cannot be empty.");
    }
    var result := ExecuteCommand(ctx, local, MountPointCommand(target));
    out := MountPointOutput(result);
  }

  // ---------------------------------------------------------------------------
  // Properties

  /** A dict every algorithm can be run on: it has an exit code and neither
      an error entry nor the unified flag. */
  predicate Flat(o: Output) {
    o.Dict? && o.d.exitCode.Some? && o.d.error.None? && !o.d.unified
  }

  /** Judging flat evidence goes straight to simple_check and never raises. */
  lemma FlatIsJudged(t: CheckSpec)
    requires Flat(t.actualOutput)
    ensures ProcessWithAlgorithm(t) == SimpleCheck(t) && SimpleCheck(t).Ok?
  {
  }

  /** command_output always yields flat evidence; when execute_command raised,
      the 127 it reports makes the check an ERROR whatever the algorithm. */
  lemma CommandOutputJudged(r: Result<ShellOutput>, title: Option<string>, algorithm: string,
                            expected: string, params: PyValue)
    ensures Flat(CommandOutputEvidence(r))
    ensures var t := CheckSpec(title, algorithm, expected, params, CommandOutputEvidence(r));
            r.Raised? ==> ProcessWithAlgorithm(t).Ok? && ProcessWithAlgorithm(t).value.status == Error
  {
    var t := CheckSpec(title, algorithm, expected, params, CommandOutputEvidence(r));
    FlatIsJudged(t);
  }

  /** execute_script always yields flat evidence, on every path and in both
      modes. */
  lemma ExecuteScriptIsFlat(m: Mode, local: LocalHost, name: string, params: PyValue, hex: string)
    ensures Flat(ExecuteScriptEffect(m, local, name, params, hex).value)
  {
    if name != "" && m.RemoteMode? {
      RemoScriptIsFlat(m.cfg, m.client, local, ScriptPath(local, name), ScriptParams(params), hex);
    }
  }

  lemma RemoScriptIsFlat(cfg: Config, client: ClientState, local: LocalHost, path: string,
                         ps: seq<PyValue>, hex: string)
    ensures Flat(RemoScriptEffect(cfg, client, local, path, ps, hex).value)
  {
    if path in local.existing && local.contents(path).Ok? {
      var up := UploadScriptOutcome(cfg, client, local.contents(path).value, RemoteScriptPath(hex));
      if up.0 {
        RunAndRemoveIsFlat(cfg, client, RemoteScriptPath(hex), ps);
      }
    }
  }

  lemma RunAndRemoveIsFlat(cfg: Config, client: ClientState, remotePath: string, ps: seq<PyValue>)
    ensures Flat(RunAndRemoveEffect(cfg, client, remotePath, ps).value)
  {
  }

  /** Without a script name nothing is run or sent, and exit code 1 is reported. */
  lemma NoScriptNameRunsNothing(m: Mode, local: LocalHost, params: PyValue, hex: string)
    ensures var e := ExecuteScriptEffect(m, local, "", params, hex);
            e.mode == m && e.events == [] && e.ran == [] && e.value.d.exitCode == Some(1)
  {
  }

  /** Locally one list is handed to `subprocess.run`: `bash`, the script's
      path, then the parameters when they are a list. Nothing goes over SSH. */
  lemma LocalScriptRunsOnce(local: LocalHost, name: string, params: PyValue, hex: string)
    requires name != ""
    ensures var e := ExecuteScriptEffect(LocalMode, local, name, params, hex);
            e.events == [] && e.mode == LocalMode
            && e.ran == [Argv([PStr("bash"), PStr(local.absPath("functions/" + name))]
                              + (if params.PList? then params.items else []))]
  {
  }

  /** In a remote mode, execute_script with a name is the remote script run. */
  lemma RemoteScriptDispatch(cfg: Config, client: ClientState, local: LocalHost, name: string,
                             params: PyValue, hex: string)
    requires name != ""
    ensures ExecuteScriptEffect(RemoteMode(cfg, client), local, name, params, hex)
            == RemoScriptEffect(cfg, client, local, ScriptPath(local, name), ScriptParams(params), hex)
  {
  }

  /** On a connected client, once the upload succeeded the upload's write
      is the first event of the remote script run. */
  lemma UploadedScriptWrittenFirst(cfg: Config, local: LocalHost, path: string, content: string,
                                   ps: seq<PyValue>, hex: string)
    requires path in local.existing && local.contents(path) == Ok(content)
    requires UploadScriptOutcome(cfg, Connected, content, RemoteScriptPath(hex)).0
    ensures var e := RemoScriptEffect(cfg, Connected, local, path, ps, hex);
            |e.events| >= 2 && e.events[0] == Write(RemoteScriptPath(hex), content)
  {
    var p := RemoteScriptPath(hex);
    UploadThenRun(cfg, local, path, ps, hex);
    UploadScriptChmods(cfg, content, p);
  }

  /** On a connected client, once the upload succeeded the temporary script is
      removed last, through the sudo rewrite, whether the run returned or
      raised. */
  lemma UploadedScriptRemovedLast(cfg: Config, local: LocalHost, path: string, content: string,
                                  ps: seq<PyValue>, hex: string)
    requires path in local.existing && local.contents(path) == Ok(content)
    requires UploadScriptOutcome(cfg, Connected, content, RemoteScriptPath(hex)).0
    ensures var e := RemoScriptEffect(cfg, Connected, local, path, ps, hex);
            var p := RemoteScriptPath(hex);
            |e.events| >= 1 && e.events[|e.events| - 1] == Exec(SudoRewrite(RemoveCommand(p)), StdinFor(cfg.password))
  {
    var p := RemoteScriptPath(hex);
    UploadThenRun(cfg, local, path, ps, hex);
    RemovedLast(cfg, p, ps);
    Last(UploadScriptOutcome(cfg, Connected, content, p).1, RunAndRemoveEffect(cfg, Connected, p, ps).events);
  }

  /** A successful upload is followed by the run and the removal. */
  lemma UploadThenRun(cfg: Config, local: LocalHost, path: string, ps: seq<PyValue>, hex: string)
    requires path in local.existing && local.contents(path).Ok?
    requires UploadScriptOutcome(cfg, Connected, local.contents(path).value, RemoteScriptPath(hex)).0
    ensures RemoScriptEffect(cfg, Connected, local, path, ps, hex).events
            == UploadScriptOutcome(cfg, Connected, local.contents(path).value, RemoteScriptPath(hex)).1
               + RunAndRemoveEffect(cfg, Connected, RemoteScriptPath(hex), ps).events
  {
  }

  lemma Last<T>(a: seq<T>, b: seq<T>)
    requires |b| > 0
    ensures (a + b)[|a + b| - 1] == b[|b| - 1]
  {
  }

  /** From a connected client, the run leaves it connected and the removal is
      the last command sent. */
  lemma RemovedLast(cfg: Config, remotePath: string, ps: seq<PyValue>)
    ensures var e := RunAndRemoveEffect(cfg, Connected, remotePath, ps);
            |e.events| >= 1 && e.mode == RemoteMode(cfg, Connected)
            && e.events[|e.events| - 1] == Exec(SudoRewrite(RemoveCommand(remotePath)), StdinFor(cfg.password))
  {
    StaysConnected(cfg, RemoteScriptCommand(remotePath, ps));
    RemoveIsSudo(remotePath);
    SudoCommandRewritten(cfg, RemoveCommand(remotePath));
  }

  lemma RemoveIsSudo(remotePath: string)
    ensures IsSudo(RemoveCommand(remotePath))
  {
    var c := RemoveCommand(remotePath);
    assert c[0] == 's' && c[5] == 'r' && c[..5] == "sudo ";
    StripKeepsWord(c, 5);
  }

  /** When the upload fails, the script is neither run nor removed. */
  lemma FailedUploadRunsNothing(cfg: Config, client: ClientState, local: LocalHost, path: string,
                                ps: seq<PyValue>, hex: string)
    requires path in local.existing && local.contents(path).Ok?
    requires !UploadScriptOutcome(cfg, client, local.contents(path).value, RemoteScriptPath(hex)).0
    ensures var e := RemoScriptEffect(cfg, client, local, path, ps, hex);
            e.events == UploadScriptOutcome(cfg, client, local.contents(path).value, RemoteScriptPath(hex)).1
            && e.mode == RemoteMode(cfg, client) && e.ran == [] && e.value.d.exitCode == Some(1)
  {
  }

  /** A connected client stays connected through execute_script. */
  lemma ScriptStaysConnected(cfg: Config, local: LocalHost, name: string, params: PyValue, hex: string)
    ensures ExecuteScriptEffect(RemoteMode(cfg, Connected), local, name, params, hex).mode
            == RemoteMode(cfg, Connected)
  {
    if name != "" {
      var path := ScriptPath(local, name);
      var ps := ScriptParams(params);
      if path in local.existing && local.contents(path).Ok? {
        var remotePath := RemoteScriptPath(hex);
        var up := UploadScriptOutcome(cfg, Connected, local.contents(path).value, remotePath);
        if up.0 {
          StaysConnected(cfg, RemoteScriptCommand(remotePath, ps));
          assert RunAndRemoveEffect(cfg, Connected, remotePath, ps).mode == RemoteMode(cfg, Connected);
        }
      }
    }
  }

  /** Remotely a script is never run on the local host, and the client
      stays one of the same configuration. */
  lemma ScriptStaysRemote(cfg: Config, client: ClientState, local: LocalHost, name: string,
                          params: PyValue, hex: string)
    ensures var e := ExecuteScriptEffect(RemoteMode(cfg, client), local, name, params, hex);
            e.mode.RemoteMode? && e.mode.cfg == cfg && e.ran == []
  {
    if name != "" {
      var path, ps := ScriptPath(local, name), ScriptParams(params);
      assert ExecuteScriptEffect(RemoteMode(cfg, client), local, name, params, hex)
          == RemoScriptEffect(cfg, client, local, path, ps, hex);
      RemoScriptStaysRemote(cfg, client, local, path, ps, hex);
    }
  }

  lemma RemoScriptStaysRemote(cfg: Config, client: ClientState, local: LocalHost, path: string,
                              ps: seq<PyValue>, hex: string)
    ensures var e := RemoScriptEffect(cfg, client, local, path, ps, hex);
            e.mode.RemoteMode? && e.mode.cfg == cfg && e.ran == []
  {
    if path in local.existing && local.contents(path).Ok? {
      var p := RemoteScriptPath(hex);
      var up := UploadScriptOutcome(cfg, client, local.contents(path).value, p);
      if up.0 {
        var after := RunAndRemoveEffect(cfg, client, p, ps);
        assert RemoScriptEffect(cfg, client, local, path, ps, hex).mode == after.mode;
      }
    }
  }

  /** The remote run of a script whose parameters are strings is one command
      that already starts with sudo, so execute_command does not prefix it
      again. */
  lemma RemoteScriptNotPrefixedTwice(remotePath: string, ps: seq<string>)
    ensures var c := Join(["sudo", "bash", remotePath] + ps, " ");
            RemoteCommandValue(RemoteScriptCommand(remotePath, Strs(ps))) == Ok(PStr(c))
            && SudoPrefixed(c) == c
  {
    var head := ["sudo", "bash", remotePath];
    var args := head + ps;
    StrsCons3("sudo", "bash", remotePath, ps);
    ListJoined(args);
    JoinStartsWithSudo(args[1..]);
    assert args == ["sudo"] + args[1..];
  }

  /** A command joined from `sudo` and further words starts with `sudo`. */
  lemma JoinStartsWithSudo(rest: seq<string>)
    requires |rest| >= 1
    ensures StartsWith(Strip(Join(["sudo"] + rest, " ")), "sudo")
  {
    var j := Join(rest, " ");
    JoinCons("sudo", rest, " ");
    Associative("sudo", " ", j);
    WordStripped("sudo", " " + j);
  }

  /** An error text from mount_point is not a dict, so judging it raises the
      AttributeError of `.get`, and the audit loop records it as an error. */
  lemma MountPointTextRaises(r: Result<ShellOutput>, title: Option<string>, algorithm: string,
                             expected: string, params: PyValue)
    requires r.Raised?
    ensures ProcessWithAlgorithm(CheckSpec(title, algorithm, expected, params, MountPointOutput(r)))
            == Raised(Exception(AttributeError, "'str' object has no attribute 'get'"))
  {
  }

  /** The evidence has no `stdout`, so unless findmnt's exit code is 127,
      `Not Null` fails and `Null` passes whatever findmnt printed. */
  lemma MountPointIgnoresStdout(so: ShellOutput, title: Option<string>, expected: string,
                                params: PyValue)
    requires so.returncode != 127
    ensures SimpleCheck(CheckSpec(title, "Not Null", expected, params, MountPointOutput(Ok(so)))).value.status == Fail
    ensures SimpleCheck(CheckSpec(title, "Null", expected, params, MountPointOutput(Ok(so)))).value.status == Pass
  {
    var o := MountPointOutput(Ok(so));
    assert DataFormat(CheckSpec(title, "Not Null", expected, params, o)).stdout == "";
    assert DataFormat(CheckSpec(title, "Null", expected, params, o)).stdout == "";
  }
}
