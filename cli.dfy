/** The command-line run: argument checks, loading the tasks, and either the
    local audit or the remote one, which connects, installs the runner, runs
    the audit, and then clears the runner and disconnects. argparse, getpass
    and the report writers are not modelled: the arguments are a record, the
    typed password is an input, and the reports are named by what they are. */
module Cli {
  import opened Py
  import opened Remote
  import opened Execution
  import opened Evidence
  import opened AuditTasks
  import opened CsvParser
  import opened Audit

  /** The parsed command line. */
  datatype Args = Args(
    benchmarkFile: string,
    profile: Option<string>,
    level: Option<string>,
    domain: Option<string>,
    id: Option<string>,
    format: string,
    loglevel: string,
    showAll: bool,
    sshHost: Option<string>,
    username: Option<string>,
    port: int,
    askPass: bool,
    password: Option<string>,
    identityFile: Option<string>)

  /** The reports generate_reports asks for. */
  datatype Report = OrganizedReports | SummaryReport | CsvReport

  /** How a run ends: an exit status, no tasks because loading failed, no
      audit because the connection failed, or the audited tasks and the
      reports made from them. */
  datatype Outcome =
    | Exited(code: int)
    | NotParsed
    | ConnectFailed
    | Audited(tasks: seq<AuditTask>, reports: seq<Report>)

  /** validate_remote_args: the status the program exits with, if any. */
  function ValidateRemoteArgs(args: Args): (exit: Option<int>)
    ensures exit.Some? <==> TextTruthy(args.sshHost) && !TextTruthy(args.username)
    ensures exit.Some? ==> exit.value == 1
  {
    if TextTruthy(args.sshHost) && !TextTruthy(args.username) then Some(1) else None
  }

  /** get_ssh_password; `typed` is what the prompt reads. Asking for the
      password discards one given on the command line. */
  function SshPassword(args: Args, typed: string): (pw: Option<string>)
    ensures args.askPass ==> pw == Some(typed)
    ensures !args.askPass ==> pw == args.password
  {
    if args.askPass then Some(typed) else args.password
  }

  /** The executor run_remote_audit builds. */
  function ExecutorConfig(args: Args, password: Option<string>, server: Server): Config {
    Config(args.sshHost.GetOr(""), args.port, args.username, password, args.identityFile, server)
  }

  function FiltersOf(args: Args): Filters {
    Filters(args.level, args.profile, args.domain, args.id)
  }

  /** generate_reports: the organised reports, the summary, and the CSV
      report only for the csv format. */
  function ReportsFor(args: Args): (rs: seq<Report>)
    ensures CsvReport in rs <==> args.format == "csv"
    ensures |rs| >= 2 && rs[0] == OrganizedReports && rs[1] == SummaryReport
  {
    [OrganizedReports, SummaryReport] + (if args.format == "csv" then [CsvReport] else [])
  }

  /** The state a task is left in by the loader. */
  const Loaded: TaskState := TaskState(Pending, [], NoValue, None)

  /** parse_tasks: a failure while loading is logged and gives None. */
  method ParseTasks(args: Args, file: CsvFile, literal: LiteralEval)
    returns (tasks: Option<seq<AuditTask>>, ghost all: seq<AuditTask>)
    ensures tasks.None? <==> ParseCsvDefs(args.benchmarkFile, file, literal).Raised?
    ensures tasks.Some? ==> Defs(all) == ParseCsvDefs(args.benchmarkFile, file, literal).value
                            && tasks.value == FilterTasks(all, FiltersOf(args))
    ensures tasks.Some? ==>
              forall i :: 0 <= i < |tasks.value| ==> fresh(tasks.value[i]) && State(tasks.value[i]) == Loaded
    ensures tasks.Some? ==> forall i, j :: 0 <= i < j < |tasks.value| ==> tasks.value[i] != tasks.value[j]
  {
    var r;
    r, all := FilterCsv(args.benchmarkFile, file, literal, FiltersOf(args));
    if r.Raised? {
      return None, all;
    }
    tasks := Some(r.value);
  }

  /** run_remote_audit; `typed` is what the password prompt reads, `server`
      the remote host, `file` the benchmark file as the loader finds it. */
  method RunRemoteAudit(args: Args, ctx: ExecutionContext, local: LocalHost, file: CsvFile,
                        literal: LiteralEval, typed: string, server: Server, hexes: nat -> string)
    returns (outcome: Outcome, ghost executor: RemoteExecutor?, ghost all: seq<AuditTask>)
    requires ctx.Valid()
    modifies ctx, local
    ensures ctx.Valid() && local.ran == old(local.ran)
    ensures ValidateRemoteArgs(args).Some? ==> outcome == Exited(1) && ctx.history == old(ctx.history)
    ensures ValidateRemoteArgs(args).None? && ParseCsvDefs(args.benchmarkFile, file, literal).Raised? ==>
              outcome == NotParsed && ctx.history == old(ctx.history)
    ensures outcome == ConnectFailed || outcome.Audited? ==>
              var cfg := ExecutorConfig(args, SshPassword(args, typed), server);
              executor != null && fresh(executor) && executor.cfg == cfg && executor.client == Closed
              && (outcome == ConnectFailed <==> ConnectState(cfg) != Connected)
              && (outcome == ConnectFailed ==> ctx.history == old(ctx.history) && executor.channel == [])
              && (outcome.Audited? ==>
                    var e := AuditEffect(Defs(outcome.tasks), RemoteMode(cfg, Connected), local, hexes);
                    ctx.history == old(ctx.history) + [Installed(executor), Cleared] && ctx.runner == null
                    && executor.channel == e.events
                    && outcome.tasks == FilterTasks(all, FiltersOf(args))
                    && Defs(all) == ParseCsvDefs(args.benchmarkFile, file, literal).value
                    && outcome.reports == ReportsFor(args)
                    && forall i :: 0 <= i < |outcome.tasks| ==> State(outcome.tasks[i]) == After(Loaded, e.value[i]))
    ensures ValidateRemoteArgs(args).None? && ParseCsvDefs(args.benchmarkFile, file, literal).Ok? ==>
              outcome == ConnectFailed || outcome.Audited?
  {
    executor, all := null, [];
    if ValidateRemoteArgs(args).Some? {
      return Exited(1), executor, all;
    }
    var password := SshPassword(args, typed);
    var tasks;
    tasks, all := ParseTasks(args, file, literal);
    if tasks.None? {
      return NotParsed, executor, all;
    }
    var connected;
    connected, executor := ConnectAndAudit(ExecutorConfig(args, password, server), tasks.value, ctx, local, hexes);
    outcome := if connected then Audited(tasks.value, ReportsFor(args)) else ConnectFailed;
  }

  /** The executor part of run_remote_audit: build and connect the executor;
      if the connection failed, disconnect and stop; otherwise audit through
      the bracket. */
  method ConnectAndAudit(cfg: Config, tasks: seq<AuditTask>, ctx: ExecutionContext, local: LocalHost,
                         hexes: nat -> string)
    returns (connected: bool, ghost executor: RemoteExecutor)
    requires ctx.Valid()
    requires forall i, j :: 0 <= i < j < |tasks| ==> tasks[i] != tasks[j]
    requires forall i :: 0 <= i < |tasks| ==> State(tasks[i]) == Loaded
    modifies Objects(tasks), ctx, local
    ensures ctx.Valid() && local.ran == old(local.ran)
    ensures fresh(executor) && executor.cfg == cfg && executor.client == Closed
    ensures connected <==> ConnectState(cfg) == Connected
    ensures !connected ==> ctx.history == old(ctx.history) && executor.channel == []
    ensures connected ==>
              var e := AuditEffect(Defs(tasks), RemoteMode(cfg, Connected), local, hexes);
              ctx.history == old(ctx.history) + [Installed(executor), Cleared] && ctx.runner == null
              && executor.channel == e.events
              && forall i :: 0 <= i < |tasks| ==> State(tasks[i]) == After(Loaded, e.value[i])
  {
    var remote := new RemoteExecutor(cfg);
    executor := remote;
    connected := remote.Connect();
    if !connected {
      remote.Disconnect();
      return;
    }
    var completed := AuditThrough(tasks, ctx, local, remote, hexes);
  }

  /** The bracket of run_remote_audit around the audit: install the
      connected executor as the runner, run the audit, then clear the runner
      and disconnect. */
  method AuditThrough(tasks: seq<AuditTask>, ctx: ExecutionContext, local: LocalHost, remote: RemoteExecutor,
                      hexes: nat -> string)
    returns (completed: seq<AuditTask>)
    requires ctx.Valid() && remote.client == Connected
    requires forall i, j :: 0 <= i < j < |tasks| ==> tasks[i] != tasks[j]
    modifies Objects(tasks), ctx, local, remote
    ensures completed == tasks
    ensures ctx.Valid() && ctx.runner == null && ctx.history == old(ctx.history) + [Installed(remote), Cleared]
    ensures remote.client == Closed && local.ran == old(local.ran)
    ensures var e := AuditEffect(Defs(tasks), RemoteMode(remote.cfg, Connected), local, hexes);
            remote.channel == old(remote.channel) + e.events
            && forall i :: 0 <= i < |tasks| ==> Finished(tasks[i], e.value[i])
  {
    completed := AuditInstalled(tasks, ctx, local, remote, hexes);
    Release(ctx, remote);
  }

  /** The finally block of run_remote_audit: clear the runner, then
      disconnect; nothing is sent. */
  method Release(ctx: ExecutionContext, remote: RemoteExecutor)
    requires ctx.Valid() && remote.client == Connected
    modifies ctx, remote
    ensures ctx.Valid() && ctx.runner == null && ctx.history == old(ctx.history) + [Cleared]
    ensures remote.client == Closed && remote.channel == old(remote.channel)
  {
    ctx.ClsRemoRunner();
    remote.Disconnect();
  }

  /** The body of the bracket: the audit with the executor installed. */
  method AuditInstalled(tasks: seq<AuditTask>, ctx: ExecutionContext, local: LocalHost, remote: RemoteExecutor,
                        hexes: nat -> string)
    returns (completed: seq<AuditTask>)
    requires ctx.Valid() && remote.client == Connected
    requires forall i, j :: 0 <= i < j < |tasks| ==> tasks[i] != tasks[j]
    modifies Objects(tasks), ctx, local, remote
    ensures completed == tasks
    ensures ctx.Valid() && ctx.runner == remote && ctx.history == old(ctx.history) + [Installed(remote)]
    ensures remote.client == Connected && local.ran == old(local.ran)
    ensures var e := AuditEffect(Defs(tasks), RemoteMode(remote.cfg, Connected), local, hexes);
            remote.channel == old(remote.channel) + e.events
            && forall i :: 0 <= i < |tasks| ==> Finished(tasks[i], e.value[i])
  {
    ctx.SetRemoteExecutor(remote);
    ghost var e := AuditEffect(Defs(tasks), RemoteMode(remote.cfg, Connected), local, hexes);
    RemoteAuditIsRemote(Defs(tasks), remote.cfg, Connected, local, hexes);
    completed := RunAudit(tasks, ctx, local, hexes);
    assert local.ran == old(local.ran) + e.ran;
  }

  /** run_local_audit: the audit in whatever mode the context is in. */
  method RunLocalAudit(args: Args, ctx: ExecutionContext, local: LocalHost, file: CsvFile,
                       literal: LiteralEval, hexes: nat -> string)
    returns (outcome: Outcome, ghost all: seq<AuditTask>)
    modifies local, ctx.runner
    ensures ParseCsvDefs(args.benchmarkFile, file, literal).Raised? <==> outcome == NotParsed
    ensures outcome == NotParsed ==> local.ran == old(local.ran)
    ensures outcome == NotParsed || outcome.Audited?
    ensures outcome.Audited? ==>
              var e := AuditEffect(Defs(outcome.tasks), old(ModeOf(ctx)), local, hexes);
              Applied(ctx, local, e)
              && outcome.tasks == FilterTasks(all, FiltersOf(args))
              && Defs(all) == ParseCsvDefs(args.benchmarkFile, file, literal).value
              && outcome.reports == ReportsFor(args)
              && forall i :: 0 <= i < |outcome.tasks| ==> State(outcome.tasks[i]) == After(Loaded, e.value[i])
  {
    var tasks;
    tasks, all := ParseTasks(args, file, literal);
    if tasks.None? {
      return NotParsed, all;
    }
    var completed := RunAudit(tasks.value, ctx, local, hexes);
    outcome := Audited(completed, ReportsFor(args));
  }

  /** run: the remote audit exactly when a host is given, from the state the
      program starts in (no runner installed). A remote run never uses the
      local process runner; a local one never opens a channel. */
  method Run(args: Args, local: LocalHost, file: CsvFile, literal: LiteralEval, typed: string, server: Server,
             hexes: nat -> string)
    returns (outcome: Outcome, ghost ctx: ExecutionContext)
    modifies local
    ensures fresh(ctx) && ctx.Valid() && ctx.runner == null
    ensures TextTruthy(args.sshHost) ==> local.ran == old(local.ran)
    ensures !TextTruthy(args.sshHost) ==> ctx.history == [] && (outcome == NotParsed || outcome.Audited?)
    ensures !TextTruthy(args.sshHost) && outcome.Audited? ==>
              var e := AuditEffect(Defs(outcome.tasks), LocalMode, local, hexes);
              e.events == [] && local.ran == old(local.ran) + e.ran
  {
    var context := new ExecutionContext();
    ctx := context;
    if TextTruthy(args.sshHost) {
      ghost var executor, all;
      outcome, executor, all := RunRemoteAudit(args, context, local, file, literal, typed, server, hexes);
    } else {
      ghost var all;
      outcome, all := RunLocalAudit(args, context, local, file, literal, hexes);
      if outcome.Audited? {
        LocalAuditIsLocal(Defs(outcome.tasks), local, hexes);
      }
    }
  }
}
