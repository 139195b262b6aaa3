/** The audit loop: each task is marked running, its check type is resolved
    to a handler, the handler's output is stored and judged, any exception
    becomes an ERROR result, and the task is marked completed. The dynamic
    import of `handlers.check_handlers.<type>_handler` is an explicit
    registry. */
module Audit {
  import opened Py
  import opened Remote
  import opened Evidence
  import opened Execution
  import opened OutputHandler
  import opened CheckHandlers
  import opened AuditTasks

  datatype Handler = CommandOutput | ExecuteScript | MountPoint

  /** The handler modules that exist, by check type. */
  const Registry: map<string, Handler> :=
    map["command_output" := CommandOutput, "execute_script" := ExecuteScript,
        "mount_point" := MountPoint]

  /** The check type's handler, or the exception that looking it up raises. */
  function Resolve(checkType: string): (r: Result<Handler>)
    ensures r.Ok? <==> checkType in Registry
    ensures r.Ok? ==> r.value == Registry[checkType]
  {
    if checkType == "" then
      Raised(Exception(ValueError, "Task has no 'check_type' defined. Please check CSV headers and data."))
    else if checkType in Registry then Ok(Registry[checkType])
    else Raised(Exception(ModuleNotFoundError,
                          "No module named 'handlers.check_handlers." + checkType + "_handler'"))
  }

  /** `handle(target, parameters)` of a handler module, from a given mode;
      `hex` is the random token execute_script draws. */
  function HandlerEffect(h: Handler, m: Mode, local: LocalHost, def: TaskDef, hex: string): Effect<Output> {
    match h
    case CommandOutput => CommandOutputEffect(m, local, def.target)
    case ExecuteScript => ExecuteScriptEffect(m, local, def.target, def.parameters, hex)
    case MountPoint => MountPointEffect(m, local, def.target)
  }

  method Handle(h: Handler, ctx: ExecutionContext, local: LocalHost, def: TaskDef, hex: string)
    returns (out: Output)
    modifies local, ctx.runner
    ensures var e := HandlerEffect(h, old(ModeOf(ctx)), local, def, hex);
            out == e.value && Applied(ctx, local, e)
  {
    match h {
      case CommandOutput => out := CommandOutputHandle(ctx, local, def.target);
      case ExecuteScript => out := ExecuteScriptHandle(ctx, local, def.target, def.parameters, hex);
      case MountPoint => out := MountPointHandle(ctx, local, def.target);
    }
  }

  /** The result recorded for a task whose handling raised. */
  function AuditError(e: Exception): ResultNode {
    Action(None, Error, HandlerFailure("Audit Handler Error: " + e.message))
  }

  /** process_with_algorithm on the task, with a raise turned into the audit
      error. */
  function Judge(def: TaskDef, out: Output): (r: ResultNode)
    ensures !out.Dict? ==> r == AuditError(NoGet(out))
    ensures out.Dict? && out.d.error.Some? ==> r.status == Error && r.Action? && r.title == Some(def.title)
    ensures out.Dict? && out.d.error.None? && !out.d.unified ==> r.Action? && r.title == Some(def.title)
  {
    match ProcessWithAlgorithm(CheckSpec(Some(def.title), def.algorithm, def.expectedValue,
                                         def.parameters, out))
    case Ok(r) => r
    case Raised(e) => AuditError(e)
  }

  /** What one task gets: the output stored in actual_output (None when the
      handler was never called, which leaves the field as it was) and the
      final result. */
  datatype TaskRecord = TaskRecord(output: Option<Output>, result: ResultNode)

  /** One iteration of the loop, from a given mode. */
  function TaskStep(def: TaskDef, m: Mode, local: LocalHost, hex: string): (e: Effect<TaskRecord>)
    ensures def.checkType !in Registry ==>
              e.mode == m && e.events == [] && e.ran == []
              && e.value.output.None? && e.value.result.status == Error
    ensures def.checkType in Registry ==>
              var h := HandlerEffect(Registry[def.checkType], m, local, def, hex);
              e.value == TaskRecord(Some(h.value), Judge(def, h.value))
              && e.mode == h.mode && e.events == h.events && e.ran == h.ran
  {
    match Resolve(def.checkType)
    case Raised(e) => NoEffect(m, TaskRecord(None, AuditError(e)))
    case Ok(h) =>
      var e := HandlerEffect(h, m, local, def, hex);
      WithValue(e, TaskRecord(Some(e.value), Judge(def, e.value)))
  }

  /** The loop's effect so far followed by one more task's. */
  function Then(acc: Effect<seq<TaskRecord>>, s: Effect<TaskRecord>): Effect<seq<TaskRecord>> {
    Effect(acc.value + [s.value], s.mode, acc.events + s.events, acc.ran + s.ran)
  }

  /** The context and the local host show the effect e on top of the
      command history ran0 and the channel history ch0. */
  ghost predicate Shows<T>(ctx: ExecutionContext, local: LocalHost, ran0: seq<Command>, ch0: seq<Event>, e: Effect<T>)
    reads ctx, ctx.runner, local
  {
    ModeOf(ctx) == e.mode && local.ran == ran0 + e.ran
    && (ctx.runner != null ==> ctx.runner.channel == ch0 + e.events)
  }

  /** The loop over a list of tasks, one step after another; task i draws
      the token hexes(i). */
  function AuditEffect(defs: seq<TaskDef>, m: Mode, local: LocalHost, hexes: nat -> string)
    : (e: Effect<seq<TaskRecord>>)
    ensures |e.value| == |defs|
    decreases |defs|
  {
    if defs == [] then NoEffect(m, [])
    else
      var before := AuditEffect(defs[..|defs| - 1], m, local, hexes);
      Then(before, TaskStep(defs[|defs| - 1], before.mode, local, hexes(|defs| - 1)))
  }

  /** The effects of steps taken one after another from mode m. */
  function Join(steps: seq<Effect<TaskRecord>>, m: Mode): (e: Effect<seq<TaskRecord>>)
    ensures |e.value| == |steps|
    decreases |steps|
  {
    if steps == [] then NoEffect(m, [])
    else Then(Join(steps[..|steps| - 1], m), steps[|steps| - 1])
  }

  lemma JoinSnoc(steps: seq<Effect<TaskRecord>>, s: Effect<TaskRecord>, m: Mode)
    ensures Join(steps + [s], m) == Then(Join(steps, m), s)
  {
    assert (steps + [s])[..|steps|] == steps;
  }

  /** The mode that step j of a run from mode m started in. */
  function ModeBefore(steps: seq<Effect<TaskRecord>>, m: Mode, j: nat): Mode
    requires j <= |steps|
  {
    if j == 0 then m else steps[j - 1].mode
  }

  /** Step j of steps is iteration j of the loop over defs from mode m. */
  ghost predicate IsStep(steps: seq<Effect<TaskRecord>>, defs: seq<TaskDef>, m: Mode, local: LocalHost,
                         hexes: nat -> string, j: nat)
    requires j < |steps| <= |defs|
  {
    steps[j] == TaskStep(defs[j], ModeBefore(steps, m, j), local, hexes(j))
  }

  /** steps are the first |steps| iterations of the loop over defs from
      mode m. */
  ghost predicate StepsOf(steps: seq<Effect<TaskRecord>>, defs: seq<TaskDef>, m: Mode, local: LocalHost, hexes: nat -> string) {
    |steps| <= |defs| && forall j :: 0 <= j < |steps| ==> IsStep(steps, defs, m, local, hexes, j)
  }

  lemma StepsOfSnoc(steps: seq<Effect<TaskRecord>>, s: Effect<TaskRecord>, defs: seq<TaskDef>, m: Mode, local: LocalHost, hexes: nat -> string)
    requires StepsOf(steps, defs, m, local, hexes) && |steps| < |defs|
    requires s == TaskStep(defs[|steps|], Join(steps, m).mode, local, hexes(|steps|))
    ensures StepsOf(steps + [s], defs, m, local, hexes)
  {
    var n := steps + [s];
    forall j | 0 <= j < |n|
      ensures IsStep(n, defs, m, local, hexes, j)
    {
      if j < |steps| {
        assert IsStep(steps, defs, m, local, hexes, j);
        assert n[j] == steps[j] && ModeBefore(n, m, j) == ModeBefore(steps, m, j);
      }
    }
  }

  /** Joining all the loop's steps over defs is the loop's effect. */
  lemma {:induction false} JoinIsAuditEffect(steps: seq<Effect<TaskRecord>>, defs: seq<TaskDef>, m: Mode, local: LocalHost, hexes: nat -> string)
    requires StepsOf(steps, defs, m, local, hexes) && |steps| == |defs|
    ensures Join(steps, m) == AuditEffect(defs, m, local, hexes)
    decreases |defs|
  {
    if defs != [] {
      var k := |defs| - 1;
      var ps, pd := steps[..k], defs[..k];
      forall j | 0 <= j < k
        ensures IsStep(ps, pd, m, local, hexes, j)
      {
        assert IsStep(steps, defs, m, local, hexes, j);
        assert ps[j] == steps[j] && pd[j] == defs[j] && ModeBefore(ps, m, j) == ModeBefore(steps, m, j);
      }
      JoinIsAuditEffect(ps, pd, m, local, hexes);
      assert IsStep(steps, defs, m, local, hexes, k);
      assert ModeBefore(steps, m, k) == Join(ps, m).mode;
    }
  }

  /** The fields of a task that the loop sets. */
  datatype TaskState = TaskState(status: TaskStatus, trail: seq<TaskStatus>, actualOutput: Output,
                                 finalResult: Option<ResultNode>)

  ghost function State(t: AuditTask): TaskState
    reads t
  {
    TaskState(t.status, t.trail, t.actualOutput, t.finalResult)
  }

  ghost function States(tasks: seq<AuditTask>): (ss: seq<TaskState>)
    reads Objects(tasks)
    ensures |ss| == |tasks| && forall j :: 0 <= j < |tasks| ==> ss[j] == State(tasks[j])
  {
    if tasks == [] then [] else States(tasks[..|tasks| - 1]) + [State(tasks[|tasks| - 1])]
  }

  /** A task that started in state st and went through one iteration with
      record r: marked running, then completed, with the final result r's
      and actual_output the handler's output when there was one. */
  function After(st: TaskState, r: TaskRecord): TaskState {
    TaskState(Completed, st.trail + [Running] + [Completed], r.output.GetOr(st.actualOutput), Some(r.result))
  }

  twostate predicate Finished(t: AuditTask, new r: TaskRecord)
    reads t
  {
    State(t) == After(old(State(t)), r)
  }

  /** The try block of the loop body: resolve the handler, call it, judge
      its output; a raise becomes the audit error. */
  method HandleTask(def: TaskDef, ctx: ExecutionContext, local: LocalHost, hex: string)
    returns (output: Option<Output>, result: ResultNode)
    modifies local, ctx.runner
    ensures var e := TaskStep(def, old(ModeOf(ctx)), local, hex);
            output == e.value.output && result == e.value.result && Applied(ctx, local, e)
  {
    var handler := Resolve(def.checkType);
    if handler.Raised? {
      output, result := None, AuditError(handler.exc);
    } else {
      var raw := Handle(handler.value, ctx, local, def, hex);
      output, result := Some(raw), Judge(def, raw);
    }
  }

  /** The body of the loop for one task, after the tasks before it have had
      the effect acc. */
  method RunTask(task: AuditTask, ctx: ExecutionContext, local: LocalHost, hex: string,
                 ghost ran0: seq<Command>, ghost ch0: seq<Event>, ghost acc: Effect<seq<TaskRecord>>)
    returns (ghost s: Effect<TaskRecord>)
    requires Shows(ctx, local, ran0, ch0, acc)
    modifies task, local, ctx.runner
    ensures s == TaskStep(task.def, acc.mode, local, hex)
    ensures Shows(ctx, local, ran0, ch0, Then(acc, s)) && Finished(task, s.value)
  {
    task.status, task.trail := Running, task.trail + [Running];
    var output, result := HandleTask(task.def, ctx, local, hex);
    task.actualOutput, task.finalResult := output.GetOr(task.actualOutput), Some(result);
    task.status, task.trail := Completed, task.trail + [Completed];
    s := TaskStep(task.def, acc.mode, local, hex);
    Associative(ran0, acc.ran, s.ran);
    if ctx.runner != null {
      Associative(ch0, acc.events, s.events);
    }
  }

  /** Where the loop stands after the iterations steps: the context and the
      local host show their joint effect on top of the histories ran0 and
      ch0, and the tasks they ran, and no other, have left their start
      states. */
  ghost predicate Progress(tasks: seq<AuditTask>, ctx: ExecutionContext, local: LocalHost, hexes: nat -> string,
                           m0: Mode, ran0: seq<Command>, ch0: seq<Event>, start: seq<TaskState>,
                           steps: seq<Effect<TaskRecord>>)
    reads Objects(tasks), ctx, ctx.runner, local
  {
    |steps| <= |tasks| == |start|
    && StepsOf(steps, Defs(tasks), m0, local, hexes)
    && Shows(ctx, local, ran0, ch0, Join(steps, m0))
    && forall j :: 0 <= j < |tasks| ==>
         State(tasks[j]) == if j < |steps| then After(start[j], Join(steps, m0).value[j]) else start[j]
  }

  /** One iteration of the loop. */
  method RunStep(tasks: seq<AuditTask>, i: nat, ctx: ExecutionContext, local: LocalHost, hexes: nat -> string,
                 ghost m0: Mode, ghost ran0: seq<Command>, ghost ch0: seq<Event>, ghost start: seq<TaskState>,
                 ghost steps: seq<Effect<TaskRecord>>)
    returns (ghost s: Effect<TaskRecord>)
    requires forall i, j :: 0 <= i < j < |tasks| ==> tasks[i] != tasks[j]
    requires i == |steps| < |tasks| && Progress(tasks, ctx, local, hexes, m0, ran0, ch0, start, steps)
    modifies tasks[i], local, ctx.runner
    ensures Progress(tasks, ctx, local, hexes, m0, ran0, ch0, start, steps + [s])
  {
    assert tasks[i].def == Defs(tasks)[i];
    ghost var before := Join(steps, m0);
    s := RunTask(tasks[i], ctx, local, hexes(i), ran0, ch0, before);
    StepsOfSnoc(steps, s, Defs(tasks), m0, local, hexes);
    JoinSnoc(steps, s, m0);
    ghost var after := Join(steps + [s], m0);
    assert after.value == before.value + [s.value];
    forall j | 0 <= j < |tasks|
      ensures State(tasks[j]) == if j < i + 1 then After(start[j], after.value[j]) else start[j]
    {
      if j != i {
        assert State(tasks[j]) == old(State(tasks[j]));
      }
    }
  }

  /** run_audit. The tasks are distinct objects, as the loader creates them. */
  method RunAudit(tasks: seq<AuditTask>, ctx: ExecutionContext, local: LocalHost, hexes: nat -> string)
    returns (completed: seq<AuditTask>)
    requires forall i, j :: 0 <= i < j < |tasks| ==> tasks[i] != tasks[j]
    modifies Objects(tasks), local, ctx.runner
    ensures completed == tasks
    ensures var e := AuditEffect(Defs(tasks), old(ModeOf(ctx)), local, hexes);
            Applied(ctx, local, e)
            && forall i :: 0 <= i < |tasks| ==> Finished(tasks[i], e.value[i])
  {
    ghost var m0 := ModeOf(ctx);
    ghost var ch0 := if ctx.runner != null then ctx.runner.channel else [];
    ghost var steps: seq<Effect<TaskRecord>> := [];
    ghost var start := States(tasks);
    assert local.ran == old(local.ran) + [];
    assert ctx.runner != null ==> ctx.runner.channel == ch0 + [];
    for i := 0 to |tasks|
      invariant |steps| == i && Progress(tasks, ctx, local, hexes, m0, old(local.ran), ch0, start, steps)
    {
      ghost var s := RunStep(tasks, i, ctx, local, hexes, m0, old(local.ran), ch0, start, steps);
      steps := steps + [s];
    }
    JoinIsAuditEffect(steps, Defs(tasks), m0, local, hexes);
    return tasks;
  }

  // ---------------------------------------------------------------------------
  // Properties

  /** A task whose check type names no handler module gets the audit error,
      and nothing is run: an empty type with the missing-type message, any
      other with the message of the failed import. */
  lemma UnresolvedIsError(def: TaskDef, m: Mode, local: LocalHost, hex: string)
    requires def.checkType !in Registry
    ensures Resolve(def.checkType).Raised?
    ensures var x := Resolve(def.checkType).exc;
            var s := TaskStep(def, m, local, hex);
            s.mode == m && s.events == [] && s.ran == [] && s.value.output == None
            && s.value.result == Action(None, Error, HandlerFailure("Audit Handler Error: " + x.message))
            && x.kind == (if def.checkType == "" then ValueError else ModuleNotFoundError)
  {
  }

  /** A task whose check type names a handler module is handled by that
      module: its output is what the task keeps as actual_output and what is
      judged, and the step has exactly the handler's effect. */
  lemma RegisteredIsHandled(def: TaskDef, m: Mode, local: LocalHost, hex: string)
    requires def.checkType in Registry
    ensures var e := HandlerEffect(Registry[def.checkType], m, local, def, hex);
            var s := TaskStep(def, m, local, hex);
            s.value == TaskRecord(Some(e.value), Judge(def, e.value))
            && s.mode == e.mode && s.events == e.events && s.ran == e.ran
  {
  }

  /** Judging never escapes the loop: a raise while judging becomes the audit
      error carrying the exception's message, and otherwise the result is
      the judged one. */
  lemma JudgeCatches(def: TaskDef, out: Output)
    ensures var r := ProcessWithAlgorithm(CheckSpec(Some(def.title), def.algorithm, def.expectedValue,
                                                    def.parameters, out));
            (r.Raised? ==> Judge(def, out) == Action(None, Error, HandlerFailure("Audit Handler Error: " + r.exc.message)))
            && (r.Ok? ==> Judge(def, out) == r.value)
  {
  }

  /** The loop's records are those before the last task, then its record. */
  lemma AuditEffectLast(defs: seq<TaskDef>, m: Mode, local: LocalHost, hexes: nat -> string)
    requires |defs| > 0
    ensures var before := AuditEffect(defs[..|defs| - 1], m, local, hexes);
            AuditEffect(defs, m, local, hexes).value
            == before.value + [TaskStep(defs[|defs| - 1], before.mode, local, hexes(|defs| - 1)).value]
  {
  }

  /** Tasks are isolated: the record of task i is the one its own step gives
      from the mode the tasks before it left behind, whatever those tasks
      did. */
  lemma {:induction false} RecordOfTask(defs: seq<TaskDef>, m: Mode, local: LocalHost, hexes: nat -> string, i: nat)
    requires i < |defs|
    ensures AuditEffect(defs, m, local, hexes).value[i]
            == TaskStep(defs[i], AuditEffect(defs[..i], m, local, hexes).mode, local, hexes(i)).value
    decreases |defs|
  {
    var k := |defs| - 1;
    AuditEffectLast(defs, m, local, hexes);
    if i < k {
      RecordOfTask(defs[..k], m, local, hexes, i);
      assert defs[..k][..i] == defs[..i];
    } else {
      assert defs[..k] == defs[..i];
    }
  }

  /** A handler run locally stays local and opens no channel. */
  lemma HandlerStaysLocal(h: Handler, local: LocalHost, def: TaskDef, hex: string)
    ensures var e := HandlerEffect(h, LocalMode, local, def, hex);
            e.mode == LocalMode && e.events == []
  {
  }

  /** A handler run remotely never uses the local process runner and keeps
      the configuration it was given. */
  lemma HandlerStaysRemote(h: Handler, cfg: Config, client: ClientState, local: LocalHost, def: TaskDef,
                           hex: string)
    ensures var e := HandlerEffect(h, RemoteMode(cfg, client), local, def, hex);
            e.mode.RemoteMode? && e.mode.cfg == cfg && e.ran == []
  {
    if h == ExecuteScript {
      ScriptStaysRemote(cfg, client, local, def.target, def.parameters, hex);
    }
  }

  /** A handler leaves a connected client connected. */
  lemma HandlerStaysConnected(h: Handler, cfg: Config, local: LocalHost, def: TaskDef, hex: string)
    ensures HandlerEffect(h, RemoteMode(cfg, Connected), local, def, hex).mode == RemoteMode(cfg, Connected)
  {
    match h
    case CommandOutput => CommandStaysConnected(cfg, local, Argv([PStr(def.target)]));
    case ExecuteScript => ScriptStaysConnected(cfg, local, def.target, def.parameters, hex);
    case MountPoint =>
      if def.target != "" {
        CommandStaysConnected(cfg, local, MountPointCommand(def.target));
      }
  }

  /** Without a runner installed the whole audit runs locally: nothing is
      sent over a channel. */
  lemma {:induction false} LocalAuditIsLocal(defs: seq<TaskDef>, local: LocalHost, hexes: nat -> string)
    ensures var e := AuditEffect(defs, LocalMode, local, hexes);
            e.mode == LocalMode && e.events == []
    decreases |defs|
  {
    if defs != [] {
      var k := |defs| - 1;
      LocalAuditIsLocal(defs[..k], local, hexes);
      match Resolve(defs[k].checkType)
      case Raised(_) =>
      case Ok(h) => HandlerStaysLocal(h, local, defs[k], hexes(k));
    }
  }

  /** With a runner installed the whole audit runs remotely: the local process
      runner is never used, and a connected client stays connected. */
  lemma {:induction false} RemoteAuditIsRemote(defs: seq<TaskDef>, cfg: Config, client: ClientState,
                                               local: LocalHost, hexes: nat -> string)
    ensures var e := AuditEffect(defs, RemoteMode(cfg, client), local, hexes);
            e.mode.RemoteMode? && e.mode.cfg == cfg && e.ran == []
            && (client == Connected ==> e.mode.client == Connected)
    decreases |defs|
  {
    if defs != [] {
      var k := |defs| - 1;
      RemoteAuditIsRemote(defs[..k], cfg, client, local, hexes);
      var before := AuditEffect(defs[..k], RemoteMode(cfg, client), local, hexes);
      match Resolve(defs[k].checkType)
      case Raised(_) =>
      case Ok(h) =>
        HandlerStaysRemote(h, cfg, before.mode.client, local, defs[k], hexes(k));
        if client == Connected {
          HandlerStaysConnected(h, cfg, local, defs[k], hexes(k));
        }
    }
  }
}
