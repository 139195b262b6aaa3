/** The execution context: the module-level remote runner (installed,
    queried, cleared) and execute_command, which sends a command either to the
    local process runner or, once a runner is installed, through the remote
    executor after turning it into one sudo-prefixed string. */
module Execution {
  import opened Py
  import opened Remote

  /** What execute_command is given: an argument list or a command line. */
  datatype Command = Argv(args: seq<PyValue>) | Line(text: string)

  /** The object execute_command returns: subprocess's CompletedProcess
      locally, the ShellOutput stand-in remotely. */
  datatype ShellOutput = ShellOutput(stdout: string, stderr: string, returncode: int)

  /** The local machine. `run` is subprocess.run(command, shell=True,
      capture_output=True, text=True, check=False), including the exceptions
      it raises; `absPath` is os.path.abspath; `existing` the paths
      os.path.exists accepts; `contents` what open(path).read() gives. The
      commands handed to the process runner are kept in `ran`. */
  class LocalHost {
    const run: Command -> Result<ShellOutput>
    const absPath: string -> string
    const existing: set<string>
    const contents: string -> Result<string>
    var ran: seq<Command>

    constructor (run: Command -> Result<ShellOutput>, absPath: string -> string,
                 existing: set<string>, contents: string -> Result<string>)
      ensures this.run == run && this.absPath == absPath && this.existing == existing
      ensures this.contents == contents && ran == []
    {
      this.run := run;
      this.absPath := absPath;
      this.existing := existing;
      this.contents := contents;
      ran := [];
    }

    method Run(command: Command) returns (r: Result<ShellOutput>)
      modifies this
      ensures r == run(command) && ran == old(ran) + [command]
    {
      r := run(command);
      ran := ran + [command];
    }
  }

  /** The calls that change the module-level runner. */
  datatype ContextOp = Installed(executor: RemoteExecutor) | Cleared

  /** The runner after a history of calls, starting from None. */
  function RunnerAfter(history: seq<ContextOp>): RemoteExecutor? {
    if history == [] then null
    else match history[|history| - 1]
      case Installed(e) => e
      case Cleared => null
  }

  /** The module-level `remo_runner`, with the history of the calls that set
      and cleared it. */
  class ExecutionContext {
    var runner: RemoteExecutor?
    ghost var history: seq<ContextOp>

    ghost predicate Valid()
      reads this
    {
      runner == RunnerAfter(history)
    }

    constructor ()
      ensures Valid() && runner == null && history == []
    {
      runner := null;
      history := [];
    }

    /** set_remote_executor */
    method SetRemoteExecutor(executor: RemoteExecutor)
      requires Valid()
      modifies this
      ensures Valid() && runner == executor && history == old(history) + [Installed(executor)]
    {
      runner := executor;
      history := history + [Installed(executor)];
    }

    /** cls_remo_runner */
    method ClsRemoRunner()
      requires Valid()
      modifies this
      ensures Valid() && runner == null && history == old(history) + [Cleared]
    {
      runner := null;
      history := history + [Cleared];
    }

    /** call_remo_runner: the runner the last call installed, if it was not a clear. */
    function CallRemoRunner(): (r: RemoteExecutor?)
      requires Valid()
      reads this
      ensures r == RunnerAfter(history)
    {
      runner
    }

    /** switch_mode */
    predicate SwitchMode()
      requires Valid()
      reads this
      ensures SwitchMode() <==> RunnerAfter(history) != null
    {
      runner != null
    }
  }

  /** Some call after position i cleared the runner. */
  predicate ClearedAfter(history: seq<ContextOp>, i: nat) {
    exists j :: i < j < |history| && history[j].Cleared?
  }

  /** A runner is installed exactly when some call installed it and no clear
      came after that call; it is then the executor of the last install. */
  lemma {:induction false} RunnerInstalledNotCleared(history: seq<ContextOp>)
    ensures RunnerAfter(history) != null <==>
            exists i :: 0 <= i < |history| && history[i].Installed? && !ClearedAfter(history, i)
    ensures RunnerAfter(history) != null ==>
            exists i :: 0 <= i < |history| && history[i] == Installed(RunnerAfter(history))
  {
    if history != [] {
      var n := |history| - 1;
      if history[n].Installed? {
        assert !ClearedAfter(history, n);
      } else {
        forall i | 0 <= i < |history| && history[i].Installed?
          ensures ClearedAfter(history, i)
        {
          assert n > i && history[n].Cleared?;
        }
      }
    }
  }

  // ---------------------------------------------------------------------------
  // Turning a command into the remote command string

  /** Python's type name, as exceptions quote it. */
  function TypeName(v: PyValue): string {
    match v
    case PNone => "NoneType"
    case PBool(_) => "bool"
    case PInt(_) => "int"
    case PStr(_) => "str"
    case PList(_) => "list"
    case PDict(_) => "dict"
  }

  /** The index of the first item that is not a string, or |args|. */
  function FirstNonString(args: seq<PyValue>): (i: nat)
    ensures i <= |args| && (forall j :: 0 <= j < i ==> args[j].PStr?)
    ensures i < |args| ==> !args[i].PStr?
  {
    if args == [] then 0
    else if !args[0].PStr? then 0
    else 1 + FirstNonString(args[1..])
  }

  function Texts(args: seq<PyValue>): (ts: seq<string>)
    requires forall j :: 0 <= j < |args| ==> args[j].PStr?
    ensures |ts| == |args| && forall j :: 0 <= j < |args| ==> ts[j] == args[j].s
  {
    seq(|args|, j requires 0 <= j < |args| => args[j].s)
  }

  /** ' '.join(args) */
  function JoinArgs(args: seq<PyValue>): Result<string> {
    var i := FirstNonString(args);
    if i < |args| then
      Raised(Exception(TypeError, "sequence item " + IntToString(i) + ": expected str instance, "
                                  + TypeName(args[i]) + " found"))
    else Ok(Join(Texts(args), " "))
  }

  function IndexOutOfRange(): Exception {
    Exception(IndexError, "list index out of range")
  }

  /** The wrapper `['/bin/bash', '-c', c]` the local runner uses. */
  predicate BashDashC(command: Command) {
    command.Argv? && |command.args| == 3
    && command.args[0] == PStr("/bin/bash") && command.args[1] == PStr("-c")
  }

  /** `['/bin/bash', '-c', c]` gives c, any other list its items
      joined by spaces, a string itself. The indexing happens before the try
      of execute_command, so its IndexError escapes. */
  function RemoteCommandValue(command: Command): (r: Result<PyValue>)
    ensures r.Raised? ==> command.Argv?
    ensures command.Argv? && |command.args| == 0 ==> r == Raised(IndexOutOfRange())
    ensures r.Ok? && !BashDashC(command) ==> r.value.PStr?
  {
    match command
    case Line(text) => Ok(PStr(text))
    case Argv(args) =>
      if |args| == 0 then Raised(IndexOutOfRange())
      else if args[0] == PStr("/bin/bash") && |args| < 2 then Raised(IndexOutOfRange())
      else if args[0] == PStr("/bin/bash") && args[1] == PStr("-c") && |args| == 3 then Ok(args[2])
      else match JoinArgs(args)
        case Ok(s) => Ok(PStr(s))
        case Raised(e) => Raised(e)
  }

  /** Prefix `sudo ` unless the stripped command already starts
      with `sudo`. */
  function SudoPrefixed(command: string): (r: string)
    ensures |r| >= |command| && r[|r| - |command|..] == command
    ensures r == command <==> StartsWith(Strip(command), "sudo")
  {
    if StartsWith(Strip(command), "sudo") then command else "sudo " + command
  }

  /** The return code is made up from stderr alone. */
  function HeuristicCode(stderr: string): int {
    if stderr == "" then 0 else 1
  }

  function RemoteError(message: string): ShellOutput {
    ShellOutput("", "Remote execution error: " + message, 127)
  }

  /** The remote branch of execute_command from a given client state: the
      outcome, the client after it and the events it adds. */
  function RemoteExecOutcome(cfg: Config, client: ClientState, command: Command)
    : (r: (Result<ShellOutput>, ClientState, seq<Event>))
    ensures r.0.Raised? <==> RemoteCommandValue(command).Raised?
    ensures r.0.Raised? ==> r.1 == client && r.2 == []
    ensures r.0.Ok? ==> r.0.value.returncode == 127
                        || r.0.value.returncode == (if r.0.value.stderr == "" then 0 else 1)
    ensures client != NoClient ==> r.1 == client
  {
    match RemoteCommandValue(command)
    case Raised(e) => (Raised(e), client, [])
    case Ok(v) =>
      if !v.PStr? then
        (Ok(RemoteError("'" + TypeName(v) + "' object has no attribute 'strip'")), client, [])
      else
        var run := RunOutcome(cfg, client, SudoPrefixed(v.s));
        match run.0
        case Ok(output) => (Ok(ShellOutput(output.0, output.1, HeuristicCode(output.1))), run.1, run.2)
        case Raised(e) => (Ok(RemoteError(e.message)), run.1, run.2)
  }

  /** Where commands go: the local process runner, or a remote executor with
      its configuration and client state. */
  datatype Mode = LocalMode | RemoteMode(cfg: Config, client: ClientState)

  /** The mode the context is in. */
  function ModeOf(ctx: ExecutionContext): Mode
    reads ctx, ctx.runner
  {
    if ctx.runner == null then LocalMode else RemoteMode(ctx.runner.cfg, ctx.runner.client)
  }

  /** What an operation gives, the mode after it, what it sent over the SSH
      channel and what it handed to the local process runner. */
  datatype Effect<T> = Effect(value: T, mode: Mode, events: seq<Event>, ran: seq<Command>)

  /** The state change an effect describes: same runner, its new client state,
      the events appended to its channel, the commands appended locally. */
  twostate predicate Applied<T>(ctx: ExecutionContext, local: LocalHost, new e: Effect<T>)
    reads ctx, ctx.runner, local
  {
    ctx.runner == old(ctx.runner) && ModeOf(ctx) == e.mode
    && local.ran == old(local.ran) + e.ran
    && (ctx.runner != null ==> ctx.runner.channel == old(ctx.runner.channel) + e.events)
  }

  /** execute_command from a given mode. */
  function CommandEffect(m: Mode, local: LocalHost, command: Command): (e: Effect<Result<ShellOutput>>)
    ensures m.LocalMode? ==> e.mode == LocalMode && e.events == [] && e.ran == [command]
    ensures m.RemoteMode? ==> e.mode.RemoteMode? && e.mode.cfg == m.cfg && e.ran == []
  {
    match m
    case LocalMode => Effect(local.run(command), LocalMode, [], [command])
    case RemoteMode(cfg, client) =>
      var o := RemoteExecOutcome(cfg, client, command);
      Effect(o.0, RemoteMode(cfg, o.1), o.2, [])
  }

  /** execute_command: local when no runner is installed, else remote. */
  method ExecuteCommand(ctx: ExecutionContext, local: LocalHost, command: Command)
    returns (r: Result<ShellOutput>)
    modifies local, ctx.runner
    ensures var e := CommandEffect(old(ModeOf(ctx)), local, command);
            r == e.value && Applied(ctx, local, e)
  {
    var remote := ctx.runner;
    if remote == null {
      r := local.Run(command);
      return;
    }
    var value := RemoteCommandValue(command);
    if value.Raised? {
      return Raised(value.exc);
    }
    if !value.value.PStr? {
      return Ok(RemoteError("'" + TypeName(value.value) + "' object has no attribute 'strip'"));
    }
    var commandStr := SudoPrefixed(value.value.s);
    var output := remote.RunCommand(commandStr);
    match output {
      case Ok(texts) =>
        r := Ok(ShellOutput(texts.0, texts.1, HeuristicCode(texts.1)));
      case Raised(e) =>
        r := Ok(RemoteError(e.message));
    }
  }

  // ---------------------------------------------------------------------------
  // Properties

  /** `['/bin/bash', '-c', c]` is sent as c. */
  lemma BashDashCUnwrapped(c: string)
    ensures RemoteCommandValue(Argv([PStr("/bin/bash"), PStr("-c"), PStr(c)])) == Ok(PStr(c))
  {
  }

  /** Any other list of strings is sent joined with single spaces. */
  lemma ListJoined(args: seq<string>)
    requires |args| > 0
    requires args[0] == "/bin/bash" ==> |args| >= 2 && !(args[1] == "-c" && |args| == 3)
    ensures RemoteCommandValue(Argv(Strs(args))) == Ok(PStr(Join(args, " ")))
  {
    var values := Strs(args);
    assert values[0] == PStr(args[0]);
    if |args| >= 2 {
      assert values[1] == PStr(args[1]);
    }
    StringsJoin(args);
  }

  /** ' '.join of strings raises nothing. */
  lemma StringsJoin(args: seq<string>)
    ensures JoinArgs(Strs(args)) == Ok(Join(args, " "))
  {
    var values := Strs(args);
    assert FirstNonString(values) == |values|;
    assert Texts(values) == args;
  }

  /** A command line is sent unchanged. */
  lemma LineUnchanged(text: string)
    ensures RemoteCommandValue(Line(text)) == Ok(PStr(text))
  {
  }

  /** After prefixing, the stripped command starts with `sudo`. */
  lemma SudoPrefixedStartsWithSudo(command: string)
    ensures StartsWith(Strip(SudoPrefixed(command)), "sudo")
  {
    if !StartsWith(Strip(command), "sudo") {
      SudoWordStripped(command);
    }
  }

  /** Stripping keeps a leading `sudo` word. */
  lemma SudoWordStripped(rest: string)
    ensures StartsWith(Strip("sudo " + rest), "sudo")
  {
    var p := "sudo " + rest;
    assert p[0] == 's' && p[3] == 'o' && p[..4] == "sudo";
    StripKeepsWord(p, 3);
  }

  /** Prefixing is idempotent: normalising twice equals normalising once. */
  lemma SudoPrefixedIdempotent(command: string)
    ensures SudoPrefixed(SudoPrefixed(command)) == SudoPrefixed(command)
  {
    SudoPrefixedStartsWithSudo(command);
  }

  /** A remote run that returns gives stdout and stderr as the runner read
      them, and a return code of 0 exactly when stderr is empty; the channel's
      exit status plays no part. */
  lemma RemoteReturnCode(cfg: Config, client: ClientState, command: string)
    requires RunOutcome(cfg, client, SudoPrefixed(command)).0.Ok?
    ensures var texts := RunOutcome(cfg, client, SudoPrefixed(command)).0.value;
            var r := RemoteExecOutcome(cfg, client, Line(command)).0;
            r == Ok(ShellOutput(texts.0, texts.1, if texts.1 == "" then 0 else 1))
            && (r.value.returncode == 0 <==> r.value.stderr == "")
  {
  }

  /** Any exception from the runner becomes stdout "", the message in stderr,
      and return code 127. */
  lemma RemoteExceptionIs127(cfg: Config, client: ClientState, command: string)
    requires RunOutcome(cfg, client, SudoPrefixed(command)).0.Raised?
    ensures var e := RunOutcome(cfg, client, SudoPrefixed(command)).0.exc;
            RemoteExecOutcome(cfg, client, Line(command)).0
            == Ok(ShellOutput("", "Remote execution error: " + e.message, 127))
  {
  }

  /** A connected client stays connected through a remote execute_command. */
  lemma StaysConnected(cfg: Config, command: Command)
    ensures RemoteExecOutcome(cfg, Connected, command).1 == Connected
  {
  }

  /** A connected client stays connected through execute_command. */
  lemma CommandStaysConnected(cfg: Config, local: LocalHost, command: Command)
    ensures CommandEffect(RemoteMode(cfg, Connected), local, command).mode == RemoteMode(cfg, Connected)
  {
    StaysConnected(cfg, command);
  }
}
