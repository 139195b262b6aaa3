# cis_assessment — a verified model of the audit engine

cis_assessment audits a Linux host against a CIS benchmark. The benchmark is
a CSV file of tasks. Each task names a check type, a target, an algorithm and
an expected value. The audit runs each task's check either on the local machine
or over SSH, judges the captured output as PASS, FAIL or ERROR, and writes a
plain-text report of the result trees.

This project models that core in Dafny, one module per source file:

| module | source file | form |
|---|---|---|
| `OutputHandler` | handlers/output_handler.py | functions for expected-value parsing, the five algorithms, `simple_check` and `process_with_algorithm`; methods with loops for `algorithm_contain`, `algorithm_does_not_contain` and the recursive `complex_check` |
| `Audit` | handlers/audit_handler.py | `run_audit` as a method whose loop writes each task object in place; handler dispatch is an explicit registry |
| `Execution` | utils/execution_utils.py | the module-global runner as a class `ExecutionContext`; `execute_command` as a method |
| `CheckHandlers` | handlers/check_handlers/*.py | the three handlers as methods over the execution context, each proved against an effect function |
| `Remote` | utils/remote_utils.py | `RemoteExecutor` as a class whose `client` field is connected lazily; the SSH channel is a log of events |
| `Cli` | handlers/cli_handler.py | the run bracket as methods: validate, parse, connect, install the runner, audit, then clear and disconnect |
| `ReportFormatters` | utils/report_formatters.py | the tree serialiser as a recursive method and a loop appending to a string; the task report as writes to a file buffer |
| `CsvParser` | utils/csv_parser.py | the row loop of `parse_csv` and the successive comprehensions of `filter_csv` |
| `AuditTasks` | the task record built at utils/csv_parser.py:41-52 | an immutable loader record plus a class holding the three fields the audit writes |
| `Evidence` | the evidence and result dictionaries | datatypes for evidence dicts, evidence trees and result nodes |
| `Py` | Python built-ins the core relies on | `Option`/`Result`, Python exceptions, `str.strip`/`lower`/`split`/`join`/`replace`, truthiness |

Python values the model needs are typed records. An evidence dict records
the keys the engine reads (`stdout`, `stderr`, `exit_code`, `error`) as
optional fields, plus a list of the other keys. That list is how the mount
point handler's misspelled `strdout`/`strderr` keys are kept. An exception is
a `Raised(Exception(kind, message))` result. Anything outside the program is
an input or an oracle:
- `LocalHost` stands for `subprocess.run` and the local files;
- `Server` stands for the SSH server as paramiko sees it;
- `hexes` gives the uuid-derived temporary names;
- `CsvFile` and `LiteralEval` stand for the `csv` reader and `ast.literal_eval`;
- `Repr` gives Python's `str()` of a dictionary or list.

A few behaviours of the code are easy to misread. The model keeps each as the
code has it:
- A row whose parameters failed to parse is still audited like any other.
  `data_format` reads only `success_code` from the parameters, and no
  algorithm reads even that.
- `simple_check` calls `.get` on its evidence before the `isinstance` test
  (handlers/output_handler.py:154). Non-dict evidence therefore raises
  AttributeError instead of giving ERROR. The audit loop then catches the
  exception.
- `connect` assigns `self.client` before it authenticates. After a failed
  connect the client is no longer None, so a later `run_command` does not try
  to connect again.
- The sudo test in `execute_command` is `startswith('sudo')`, with no space.
  The routing test in `run_command` is `startswith('sudo ')`.

## Model

| member | source | states |
|---|---|---|
| Py.StripAll | handlers/output_handler.py:31 | each condition is the stripped text of the piece at the same index; empty pieces are kept (the CSV header at utils/csv_parser.py:19 is stripped by the same function) |
| OutputHandler.ParseExpected | handlers/output_handler.py:26-40 | `;;` is looked for before `\|\|`, so a value holding both is an AND; a value without either separator is one stripped SINGLE condition; an all-blank value gives no conditions |
| OutputHandler.ParseExpectedPieces | handlers/output_handler.py:28-37 | joining the unstripped pieces with their separator gives the expected value back, so no text is lost and empty pieces survive |
| OutputHandler.DataFormat | handlers/output_handler.py:8-42 | evidence that is not a dict gives an empty stdout, exit code -1, no conditions and AND; a dict gives its stdout ("" when the key is absent), its exit code (-1 when absent), the success code and the parsed expected value; so AND comes out exactly for non-dict evidence or a value holding `;;`, and SINGLE never has more than one condition |
| OutputHandler.AnyEqual | handlers/output_handler.py:56-58 | true iff some lower-cased condition equals the target |
| OutputHandler.AlgorithmExact | handlers/output_handler.py:48-58 | the OR and non-OR branches agree: true iff some lower-cased condition equals the stripped, lower-cased stdout; no conditions gives false; the exit codes play no part |
| OutputHandler.AlgorithmNull | handlers/output_handler.py:60-62 | true iff stdout is empty, and it is not stripped again |
| OutputHandler.AlgorithmNotNull | handlers/output_handler.py:64-66 | the exact negation of Null |
| OutputHandler.AlgorithmContain | handlers/output_handler.py:103-118 | under OR, true iff some normalised condition occurs in the normalised stdout; otherwise true iff every one does, so no conditions is true for AND/SINGLE and false for OR |
| OutputHandler.ContainLoop | handlers/output_handler.py:107-118 | the early-return loop computes the quantified rule: stopping at the first hit under OR, and at the first miss otherwise |
| OutputHandler.AlgorithmDoesNotContain | handlers/output_handler.py:120-136 | both branches compute the same predicate: true iff no normalised condition occurs, so an empty condition always forces false |
| OutputHandler.DoesNotContainLoop | handlers/output_handler.py:125-136 | the loop returns false at the first condition that occurs, and true iff none does |
| OutputHandler.AlgorithmNamed | handlers/output_handler.py:139-147 | exactly the five names Exact, Contain, Does Not Contain, Null and Not Null resolve |
| OutputHandler.SimpleCheck | handlers/output_handler.py:150-182 | raises iff the evidence is not a dict; otherwise an action node with the task's title and the raw evidence, which is ERROR iff exit_code is missing, equals 127 or the algorithm is unknown, and PASS iff none of those and the algorithm holds |
| OutputHandler.Outcomes | handlers/output_handler.py:190-198 | one outcome per evaluated child, in order |
| OutputHandler.EvalNode | handlers/output_handler.py:184-208 | a leaf is judged by simple_check under its title or "Untitled Step", and raises exactly when its raw evidence is not a dict; a group whose logic is not a string raises; a returned group is a logic node with its logic upper-cased and no more children than steps |
| OutputHandler.EvalGroup | handlers/output_handler.py:185-200 | a logic that is not a string raises before any child is evaluated; a returned group is a logic node with the upper-cased logic and no more children than steps |
| OutputHandler.EvalSteps | handlers/output_handler.py:190-198 | the loop records at most one child per remaining step, has_error never returns to false, and a loop that stops before the last step ends with is_passed true |
| OutputHandler.EvalStepsShape | handlers/output_handler.py:190-198 | the evaluated children are a prefix of the steps that ends either at the first stopping child or at the last step |
| OutputHandler.GroupOutcome | handlers/output_handler.py:184-200 | the group's logic is the upper-cased name; it is ERROR iff an evaluated child is ERROR; otherwise it is PASS iff evaluation stopped at a stopping child (a PASS flagged pass_stop_check, or any PASS under OR) or the logic is AND and every child passed |
| OutputHandler.GroupChildren | handlers/output_handler.py:190-200 | the group's steps_results are exactly the evaluated prefix, in order |
| OutputHandler.AndFailsOnNonPass | handlers/output_handler.py:195-197 | under AND with no pass_stop_check set, any evaluated child that is not PASS keeps the group from PASS |
| OutputHandler.OtherLogicPassesOnlyByStop | handlers/output_handler.py:187-199 | a logic name other than AND/OR passes only through a child's pass_stop_check |
| OutputHandler.OrStopsAtFirstPass | handlers/output_handler.py:190-200 | under OR, a failing first child and a passing second give a passing group of exactly those two children; later children are not evaluated |
| OutputHandler.OrLoopStopsAtSecond | handlers/output_handler.py:190-198 | the same for the loop itself: it stops after the second child with is_passed set and no error |
| OutputHandler.ComplexCheck | handlers/output_handler.py:184-208 | the recursive method with its mutating loop returns the value of the evaluation function on every tree |
| OutputHandler.RootLogic | handlers/output_handler.py:216-217 | the root group's logic is always truthy: the payload's own when that is truthy, and AND otherwise |
| OutputHandler.ProcessWithAlgorithm | handlers/output_handler.py:210-222 | evidence with an error key gives ERROR carrying that evidence; an empty unified tree gives ERROR "Logic tree empty."; a non-empty unified tree is evaluated as one root group; anything else is simple_check |
| Execution.LocalHost.Run | utils/execution_utils.py:36-44 | a local run records the command and returns the oracle's answer for it |
| Execution.ExecutionContext.constructor | utils/execution_utils.py:7 | no runner is installed at start |
| Execution.ExecutionContext.SetRemoteExecutor | utils/execution_utils.py:17-19 | installs the given runner and logs the installation |
| Execution.ExecutionContext.ClsRemoRunner | utils/execution_utils.py:21-23 | clears the runner and logs the clearing |
| Execution.ExecutionContext.CallRemoRunner | utils/execution_utils.py:25-27 | the runner that the history of installations and clearings leaves, or null |
| Execution.ExecutionContext.SwitchMode | utils/execution_utils.py:29-31 | true iff that history leaves a runner installed |
| Execution.RunnerInstalledNotCleared | utils/execution_utils.py:7-31 | over any history, switch_mode holds iff some installation is not followed by a clearing, and call_remo_runner is the runner of the last installation |
| Execution.FirstNonString | utils/execution_utils.py:50 | finds the first list item that is not a string, which is where `' '.join` raises TypeError |
| Execution.Texts | utils/execution_utils.py:50 | the texts of a list that holds only strings |
| Execution.CommandEffect | utils/execution_utils.py:33-80 | in local mode exactly one command list is handed to `subprocess.run` and nothing goes over SSH; in remote mode nothing runs locally |
| Execution.ExecuteCommand | utils/execution_utils.py:33-80 | the method chooses the runner by the installed flag and its result and effects are those of the command effect |
| Execution.BashDashCUnwrapped | utils/execution_utils.py:47-48 | `['/bin/bash','-c',c]` becomes `c` |
| Execution.ListJoined | utils/execution_utils.py:46-50 | any other list of strings is joined with single spaces |
| Execution.StringsJoin | utils/execution_utils.py:50 | joining text items gives the spaced concatenation of their texts |
| Execution.LineUnchanged | utils/execution_utils.py:51-52 | a string command is used as it is |
| Execution.RemoteCommandValue | utils/execution_utils.py:46-52 | only a list can raise, and an empty list raises IndexError; any value other than the third item of the `/bin/bash -c` wrapper is a string |
| Execution.SudoPrefixed | utils/execution_utils.py:55-56 | the command is kept at the end, and it is left unchanged exactly when its stripped text already starts with "sudo" |
| Execution.RemoteExecOutcome | utils/execution_utils.py:45-80 | the remote branch raises exactly when building the command string raised, since the indexing and the join come before the try; a returned code is 127 for a caught exception, else 0 with empty stderr and 1 otherwise; an existing client is kept |
| Execution.SudoPrefixedStartsWithSudo | utils/execution_utils.py:55-56 | after normalising, the stripped command starts with "sudo" |
| Execution.SudoWordStripped | utils/execution_utils.py:55-56 | a command prefixed with "sudo " starts with "sudo" after stripping |
| Execution.SudoPrefixedIdempotent | utils/execution_utils.py:55-56 | normalising twice is normalising once |
| Execution.RemoteReturnCode | utils/execution_utils.py:58-71 | the returncode is 0 iff the runner's stderr is empty, and 1 otherwise, whatever the channel status |
| Execution.RemoteExceptionIs127 | utils/execution_utils.py:73-80 | a raising runner gives stdout "", stderr "Remote execution error: " + message, and returncode 127 |
| Execution.StaysConnected | utils/execution_utils.py:54-80 | a remote command leaves a connected executor connected |
| Execution.CommandStaysConnected | utils/execution_utils.py:33-80 | so does any command in any mode |
| CheckHandlers.CommandOutputEffect | handlers/check_handlers/command_output_handler.py:8-27 | the evidence always has an exit code and no error key; locally exactly the one-element list `[target]` is handed to `subprocess.run` and nothing goes over SSH; remotely nothing runs locally |
| CheckHandlers.CommandOutputHandle | handlers/check_handlers/command_output_handler.py:8-27 | runs `[target]` once through execute_command and returns stripped stdout/stderr with the backend code, or exit code 127 with the failure reason |
| CheckHandlers.CommandOutputJudged | handlers/check_handlers/command_output_handler.py:21-27 | the evidence is always a flat dict; an execution failure judges ERROR before any algorithm runs |
| CheckHandlers.ExecuteScriptEffect | handlers/check_handlers/execute_script_handler.py:9-24 | without a name nothing runs or is sent; locally at most one command runs and nothing is sent; remotely nothing runs locally and the configuration is kept |
| CheckHandlers.ExecuteScriptHandle | handlers/check_handlers/execute_script_handler.py:9-24 | an empty name returns exit code 1 without running anything; non-list params become []; the remote path is taken iff switch_mode |
| CheckHandlers.LocalScriptEffect | handlers/check_handlers/execute_script_handler.py:26-52 | the one list handed to `subprocess.run` is exactly `['bash', path] + params`, and nothing goes over SSH; the evidence has an exit code and no error key, and the code is 1 when the run raised |
| CheckHandlers.LocalScript | handlers/check_handlers/execute_script_handler.py:26-52 | hands the list `['bash', path] + params` to `subprocess.run` once; FileNotFoundError and other failures give exit code 1 with their messages |
| CheckHandlers.RemoScriptEffect | handlers/check_handlers/execute_script_handler.py:54-105 | nothing runs locally and the configuration is kept; a missing local script sends nothing; an existing client is kept; the evidence has an exit code and no error key on every path |
| CheckHandlers.RemoScript | handlers/check_handlers/execute_script_handler.py:54-105 | a missing script or a failed upload returns exit code 1 without running anything; otherwise uploads, runs and removes, in that order |
| CheckHandlers.RunAndRemoveEffect | handlers/check_handlers/execute_script_handler.py:76-98 | nothing runs locally, an existing client is kept, at most the run and the removal go over SSH, and the evidence has an exit code and no error key |
| CheckHandlers.RunAndRemove | handlers/check_handlers/execute_script_handler.py:76-98 | the run is followed by exactly one removal, whose failure is ignored, even when the run raised |
| CheckHandlers.FlatIsJudged | handlers/output_handler.py:210-222 | flat evidence goes to simple_check and is never raised on |
| CheckHandlers.ExecuteScriptIsFlat | handlers/check_handlers/execute_script_handler.py:9-105 | every path of the script handler returns a stdout/stderr/exit_code dict |
| CheckHandlers.RemoScriptIsFlat | handlers/check_handlers/execute_script_handler.py:54-105 | every remote path returns such a dict |
| CheckHandlers.RunAndRemoveIsFlat | handlers/check_handlers/execute_script_handler.py:76-98 | so does the run-and-remove block |
| CheckHandlers.NoScriptNameRunsNothing | handlers/check_handlers/execute_script_handler.py:10-15 | an empty name runs nothing and gives exit code 1, not 127, so the algorithm still runs |
| CheckHandlers.LocalScriptRunsOnce | handlers/check_handlers/execute_script_handler.py:17-27 | the one list handed to `subprocess.run` is exactly `['bash', abspath('functions/' + name)] + params` |
| CheckHandlers.RemoteScriptDispatch | handlers/check_handlers/execute_script_handler.py:17-24 | in remote mode the handler is remo_script on the absolute path and the list params |
| CheckHandlers.UploadedScriptWrittenFirst | handlers/check_handlers/execute_script_handler.py:63-69 | the first event over SSH writes the script's content to `/tmp/audit_script_<8 hex>.sh` |
| CheckHandlers.UploadedScriptRemovedLast | handlers/check_handlers/execute_script_handler.py:76-96 | after a successful upload, the last command sent is `sudo rm -f` of that path, rewritten for sudo |
| CheckHandlers.RemovedLast | handlers/check_handlers/execute_script_handler.py:91-96 | the removal is the final event whether the run returned or raised |
| CheckHandlers.RemoveIsSudo | handlers/check_handlers/execute_script_handler.py:94 | the removal goes through the sudo rewrite |
| CheckHandlers.FailedUploadRunsNothing | handlers/check_handlers/execute_script_handler.py:69-74 | a failed upload sends no command |
| CheckHandlers.ScriptStaysConnected | handlers/check_handlers/execute_script_handler.py:54-105 | the script handler leaves a connected executor connected |
| CheckHandlers.ScriptStaysRemote | handlers/check_handlers/execute_script_handler.py:21-105 | in remote mode nothing runs locally |
| CheckHandlers.RemoScriptStaysRemote | handlers/check_handlers/execute_script_handler.py:54-105 | remo_script runs nothing locally and keeps the configuration |
| CheckHandlers.RemoteScriptNotPrefixedTwice | handlers/check_handlers/execute_script_handler.py:77-83 | the `sudo bash path params` list is sent as its spaced join; the sudo prefix is not added a second time |
| CheckHandlers.JoinStartsWithSudo | handlers/check_handlers/execute_script_handler.py:77 | that join already starts with "sudo" |
| CheckHandlers.MountPointEffect | handlers/check_handlers/mount_point_handler.py:4-34 | an empty target gives the error text and runs nothing; a dict result has an exit code but no `stdout` key, since the texts sit under `strdout` and `strderr`; the one list handed to `subprocess.run` is exactly `['findmnt', '-kn', target]` |
| CheckHandlers.MountPointHandle | handlers/check_handlers/mount_point_handler.py:4-34 | an empty target returns the bare error string without running anything; otherwise the list `['findmnt','-kn',target]` is handed to `subprocess.run` once, and a raising run returns a string |
| CheckHandlers.MountPointTextRaises | handlers/check_handlers/mount_point_handler.py:31-34 | a string result makes the evaluation raise AttributeError at `.get` |
| CheckHandlers.MountPointIgnoresStdout | handlers/check_handlers/mount_point_handler.py:25-29 | because of the misspelled keys, unless the exit code is 127 Null always passes and Not Null always fails, whatever findmnt printed |
| Remote.AuthFor | utils/remote_utils.py:22-31 | a key path is preferred over a password; with neither, authentication fails with ValueError |
| Remote.RemoteExecutor.constructor | utils/remote_utils.py:7-15 | the executor holds its configuration and no client |
| Remote.RemoteExecutor.Connect | utils/remote_utils.py:17-52 | the client becomes the connection state the configuration reaches, so a failed attempt still leaves a client that is not connected; true iff connected; failures are returned, never raised |
| Remote.RemoteExecutor.Disconnect | utils/remote_utils.py:54-57 | closes any client and sends nothing |
| Remote.RemoteExecutor.ExecCommand | utils/remote_utils.py:68-80 | one command over the channel, logged; only stdout and stderr come back |
| Remote.RemoteExecutor.RunCommand | utils/remote_utils.py:59-87 | its result, new client state and channel events are those of the run outcome: with no client it first connects and raises ConnectionError if that fails; a command starting with "sudo " goes to call_sudo_command and any other is sent verbatim |
| Remote.RemoteExecutor.CallSudoCommand | utils/remote_utils.py:89-115 | sends the rewritten command, writing the password and a newline to stdin only when the password is non-empty |
| Remote.RemoteExecutor.UploadFile | utils/remote_utils.py:128-141 | true iff the SFTP put works; the put is logged only then, and the client is unchanged |
| Remote.RemoteExecutor.UploadScriptContent | utils/remote_utils.py:143-159 | false with no client; otherwise writes the content, then issues `sudo chmod +x` on the path |
| Remote.ConnectState | utils/remote_utils.py:17-52 | connect always leaves a client object, and it is connected exactly when a credential was chosen and the server accepts it |
| Remote.RunOutcome | utils/remote_utils.py:59-87 | run_command leaves a client object, keeps an existing one, sends at most one command (the routed form of the one given), and raises without sending whenever the client is not connected |
| Remote.NoCredentialNoConnection | utils/remote_utils.py:30-52 | with neither key nor password, connect returns false |
| Remote.KeyPreferred | utils/remote_utils.py:24-29 | with a key, the password is not used |
| Remote.LazyConnectFails | utils/remote_utils.py:60-62 | with no client and a failing connect, run_command raises ConnectionError and sends nothing, and the client left behind makes a later run fail too |
| Remote.PlainCommandVerbatim | utils/remote_utils.py:65-80 | a command that does not start with "sudo " is sent unchanged, with nothing on stdin |
| Remote.SudoCommandRewritten | utils/remote_utils.py:65-96 | a routed command is sent in its rewritten form |
| Remote.SudoRewriteLeading | utils/remote_utils.py:91 | for a routed command, the first "sudo " that the rewrite replaces is the leading one |
| Remote.SudoAfterSpace | utils/remote_utils.py:65-91 | a routed command starts with "sudo " once its leading blanks are stripped |
| Remote.PasswordOnStdin | utils/remote_utils.py:94-96 | stdin carries password + "\n" iff the password is non-empty |
| Remote.UploadsNeedClient | utils/remote_utils.py:128-146 | both uploads return false and send nothing when there is no client |
| Remote.UploadScriptChmods | utils/remote_utils.py:148-154 | a successful content upload is followed by the chmod command |
| Remote.ChmodIsSudo | utils/remote_utils.py:154 | the chmod command is routed through the sudo rewrite |
| AuditTasks.AuditTask.constructor | utils/csv_parser.py:41-52 | a loaded task holds its loader fields and has not been started |
| AuditTasks.Defs | handlers/audit_handler.py:17 | the loader records of a task list, one per task, in order |
| Audit.Resolve | handlers/audit_handler.py:22-28 | a check type resolves iff its handler module is registered, and then to that handler |
| Audit.Handle | handlers/audit_handler.py:28-31 | calls the resolved handler with `(target, parameters)` and returns its output with exactly its effect |
| Audit.AuditEffect | handlers/audit_handler.py:17-38 | one task record per task |
| Audit.Join | handlers/audit_handler.py:17-38 | sequencing keeps one value per step, in order |
| Audit.JoinSnoc | handlers/audit_handler.py:17-38 | one more task extends the sequenced values and events by that task's own |
| Audit.StepsOfSnoc | handlers/audit_handler.py:17-38 | the steps of a longer task list extend those of its prefix |
| Audit.JoinIsAuditEffect | handlers/audit_handler.py:17-38 | running the task steps one after another, each from the mode the previous one left, is the audit's effect |
| Audit.States | handlers/audit_handler.py:17-38 | reads the status, output and result of every task, in order |
| Audit.HandleTask | handlers/audit_handler.py:21-36 | one task's try block: the stored output and result are those of its task step, with its effects |
| Audit.RunTask | handlers/audit_handler.py:18-38 | marks the task RUNNING, then stores the output (unchanged when the handler raised) and result, and marks it COMPLETED; no other task changes |
| Audit.RunStep | handlers/audit_handler.py:17-38 | after the i-th iteration tasks 0..i are completed with their records and the rest are untouched |
| Audit.RunAudit | handlers/audit_handler.py:14-56 | returns the same list, each task completed with the record the audit effect gives it, and the hosts see exactly the audit's commands |
| Audit.UnresolvedIsError | handlers/audit_handler.py:22-36 | an unresolvable check type runs nothing and records an ERROR action whose error is "Audit Handler Error: " + message |
| Audit.RegisteredIsHandled | handlers/audit_handler.py:25-33 | a registered type stores the handler's output and judges it |
| Audit.Judge | handlers/audit_handler.py:33-36 | evidence that is not a dict becomes the "Audit Handler Error" ERROR record carrying the AttributeError of `.get`; evidence with an error key is an ERROR action node under the task's title; other non-unified evidence is an action node under the task's title |
| Audit.TaskStep | handlers/audit_handler.py:18-38 | a check type without a handler module runs and sends nothing, leaves actual_output as it was and records ERROR; otherwise the handler's output is stored and judged, and the step's traffic and mode are the handler's |
| Audit.JudgeCatches | handlers/audit_handler.py:33-36 | a raising judgement becomes the ERROR record; otherwise the judged node is stored, so every result is PASS, FAIL or ERROR |
| Audit.RecordOfTask | handlers/audit_handler.py:17-38 | task i's record is its step from the mode left by the tasks before it, so a failing task affects later ones only through the mode |
| Audit.HandlerStaysLocal | handlers/audit_handler.py:28-31 | in local mode no handler sends anything over SSH or leaves local mode |
| Audit.HandlerStaysRemote | handlers/audit_handler.py:28-31 | in remote mode no handler runs a local command, and each keeps the configuration |
| Audit.HandlerStaysConnected | handlers/audit_handler.py:28-31 | no handler disconnects a connected executor |
| Audit.LocalAuditIsLocal | handlers/audit_handler.py:17-38 | a local audit sends nothing over SSH |
| Audit.RemoteAuditIsRemote | handlers/audit_handler.py:17-38 | a remote audit runs nothing locally |
| Cli.ValidateRemoteArgs | handlers/cli_handler.py:54-57 | exits with 1 iff ssh_host is truthy and username is not |
| Cli.SshPassword | handlers/cli_handler.py:59-63 | with --ask-pass the typed password replaces the one given on the command line |
| Cli.ReportsFor | handlers/cli_handler.py:79-85 | the organised reports and the summary always, and the CSV report iff the format is 'csv' |
| Cli.ParseTasks | handlers/cli_handler.py:65-77 | None iff loading raises; otherwise the filtered tasks, fresh and unstarted |
| Cli.RunRemoteAudit | handlers/cli_handler.py:87-124 | invalid arguments exit with 1 before parsing; a parse failure stops before any connection; a failed connect installs no runner and runs no task; otherwise the runner is installed, the tasks audited and the runner cleared, and then the reports are made |
| Cli.ConnectAndAudit | handlers/cli_handler.py:99-121 | true iff the connection succeeds; on failure no runner is installed and nothing is sent; on success the runner is installed and then cleared, the channel carries exactly the audit's events, and every task holds its record; the executor is disconnected either way |
| Cli.AuditThrough | handlers/cli_handler.py:112-121 | the runner is installed before the audit and cleared after it, the executor ends disconnected, nothing runs locally, and every task is finished with its record |
| Cli.Release | handlers/cli_handler.py:118-121 | clears the runner and disconnects: the finally block |
| Cli.AuditInstalled | handlers/cli_handler.py:112-116 | with the runner installed, the audit runs in remote mode over the connected executor and leaves it installed and connected |
| Cli.RunLocalAudit | handlers/cli_handler.py:126-137 | a parse failure stops with no audit, no command and no reports; otherwise the filtered tasks are audited in the context's mode and the reports are made |
| Cli.Run | handlers/cli_handler.py:139-146 | with a truthy ssh_host nothing runs locally; otherwise no runner is ever installed and exactly the audit's commands run locally; the runner is cleared at the end either way |
| CsvParser.Profiles | utils/csv_parser.py:24-25 | one profile per comma-separated piece of the column, which defaults to 'All' |
| CsvParser.ParseRows | utils/csv_parser.py:21-53 | when no row raises, one task per row |
| CsvParser.ParseCsv | utils/csv_parser.py:11-59 | raises exactly when the loader does (a missing file, or the wrapped exception of a row), and otherwise returns new, distinct, unstarted tasks holding the loaded records in order |
| CsvParser.LoadTasks | utils/csv_parser.py:21-53 | the row loop stops at the first raising row, and otherwise appends one new, distinct, unstarted task per row |
| CsvParser.Only | utils/csv_parser.py:65-72 | one comprehension: every kept task is a given task that meets the criterion, every given task that meets it is kept, and the list never grows |
| CsvParser.FilterCsv | utils/csv_parser.py:61-74 | the parsed tasks, filtered |
| CsvParser.FilterParsed | utils/csv_parser.py:64-72 | the successive reassignments of the task list compute the filter function |
| CsvParser.FilterIsSelect | utils/csv_parser.py:65-72 | the successive comprehensions equal one pass keeping the tasks that meet every active filter |
| CsvParser.ApplyStep | utils/csv_parser.py:65-72 | one inactive filter keeps everything, an active one keeps what meets it |
| CsvParser.SelectMembers | utils/csv_parser.py:65-72 | a task is kept iff it is in the input and matches every supplied filter: level, domain and id by equality, profile by membership |
| CsvParser.SelectDistinct | utils/csv_parser.py:61-74 | filtering keeps the tasks distinct |
| CsvParser.FilterKeepsDistinct | utils/csv_parser.py:61-74 | so does the whole filter |
| CsvParser.SelectIsSubsequence | utils/csv_parser.py:61-74 | the result is an order-preserving subsequence of the input |
| CsvParser.NoFilterKeepsAll | utils/csv_parser.py:64-74 | when every filter is None or empty, the list comes back unchanged, in order |
| CsvParser.ZipKeys | utils/csv_parser.py:22 | the row dict's keys are the header cells up to the shorter of the two lengths |
| CsvParser.ZipLastWins | utils/csv_parser.py:22 | a header cell maps to the value at its last occurrence |
| CsvParser.MissingColumnDefaults | utils/csv_parser.py:41-52 | missing columns default to Level 'N/A', Domain 'General', Title 'No Title', and '' for ID, Check_Type, Target, Algorithm and Expected_Value |
| CsvParser.DefaultProfile | utils/csv_parser.py:24-25 | with no profile column the profile list is ['All'] |
| CsvParser.ProfilesArePieces | utils/csv_parser.py:24-25 | the profiles rejoined with commas are the column's pieces, stripped |
| CsvParser.Params | utils/csv_parser.py:27-39 | parameters that do not raise are a dict or a list; a raise is literal_eval's own exception on a non-empty text, passed on unchanged |
| CsvParser.RowTask | utils/csv_parser.py:22-52 | a row raises exactly when its parameters raise; a loaded task has a dict or a list as parameters and at least one profile |
| CsvParser.ParseCsvDefs | utils/csv_parser.py:11-59 | a missing file raises FileNotFoundError naming the path; once the file exists every exception comes out as ValueError or the generic Exception; a load gives one task per row after the header |
| CsvParser.FilterTasks | utils/csv_parser.py:61-74 | never longer than the list, and a task is in the result exactly when it is in the list and matches every active filter |
| CsvParser.ParamsAreContainers | utils/csv_parser.py:27-35 | parameters that do not raise are a dict or a list: empty text gives {}, a dict or list literal is kept, and any other literal is replaced by a dict holding only an error |
| CsvParser.MalformedParams | utils/csv_parser.py:31-39 | text literal_eval rejects with ValueError or SyntaxError gives an error dict that keeps the original text under orig_value; any other exception is raised on |
| CsvParser.RowsNumberedFromTwo | utils/csv_parser.py:21 | the data row at index i is reported as row i + 2 |
| CsvParser.ParseRowsStep | utils/csv_parser.py:21-53 | parsing one more row extends the tasks by that row's task |
| CsvParser.RaiseSticks | utils/csv_parser.py:21-57 | once a row raises, later rows do not change the outcome |
| CsvParser.FirstRaisingRowDecides | utils/csv_parser.py:21-57 | the first raising row decides the exception |
| CsvParser.AllRowsParse | utils/csv_parser.py:21-53 | when no row raises, every row gives its task, in order |
| Py.LowerChar | handlers/output_handler.py:56 | ASCII upper case is mapped to lower case and nothing else changes |
| Py.UpperChar | handlers/output_handler.py:186 | ASCII lower case is mapped to upper case and nothing else changes |
| Py.Lower | handlers/output_handler.py:56 | `str.lower` maps every character and keeps the length |
| Py.Upper | handlers/output_handler.py:186 | `str.upper` maps every character and keeps the length |
| Py.ReplaceFirst | utils/remote_utils.py:91 | `str.replace(old, new, 1)` on text that starts with the pattern replaces that leading occurrence and keeps the rest |
| Py.ReplaceFirstAbsent | utils/remote_utils.py:91 | without an occurrence the text is unchanged |
| Py.LStripIsSuffix | handlers/output_handler.py:31 | left-stripping leaves a suffix with no leading blank |
| Py.RStripIsPrefix | handlers/output_handler.py:31 | right-stripping leaves a prefix with no trailing blank |
| Py.Split | handlers/output_handler.py:28-37 | `str.split(sep)` gives at least one piece |
| Py.SplitPiecesHaveNoSep | handlers/output_handler.py:28-37 | no piece of `str.split(sep)` contains the separator |
| Py.SplitLeftmost | handlers/output_handler.py:28-37 | the cuts are at the leftmost occurrences: no occurrence of the separator starts inside a piece that a cut ends, and the last piece holds none |
| Py.SplitJoin | handlers/output_handler.py:28-37 | joining the split pieces with the separator rebuilds the text |
| Py.SplitNoSep | handlers/output_handler.py:38-40 | the same for the whole text |
| ReportFormatters.Lookup | utils/report_formatters.py:76-78 | a details key is found iff it is present |
| ReportFormatters.DetailEntries | utils/report_formatters.py:72-89 | only action nodes get detail lines; string details raise AttributeError; error is preferred over reason and either one is followed by a Details_Output line; with neither, one Details line |
| ReportFormatters.TreeEntries | utils/report_formatters.py:50-70 | a rendered node starts with its own heading under the prefix and connector, and a detail section that raises makes the whole node raise |
| ReportFormatters.FormatForFile | utils/report_formatters.py:50-70 | the recursive method returns the rendering of the node's entries, or the exception raised inside |
| ReportFormatters.FormatChildren | utils/report_formatters.py:66-68 | the loop's accumulated string is the rendering of the children's entries |
| ReportFormatters.OneHeadingPerNode | utils/report_formatters.py:50-68 | the heading lines are one per node, in preorder, each "[**] LOGIC GROUP (logic)" or "[*status*] STEP: title", with "Untitled Step" for a missing title |
| ReportFormatters.ChildHeadings | utils/report_formatters.py:66-68 | the same for the children from a given one on |
| ReportFormatters.RaisesOnStringDetails | utils/report_formatters.py:63-76 | formatting raises iff some node in the tree has string details, and the exception is AttributeError |
| ReportFormatters.ChildrenRaise | utils/report_formatters.py:66-68 | the same for the children from a given one on |
| ReportFormatters.ChildRenderings | utils/report_formatters.py:66-68 | one rendering per child, and only the final child is rendered as last |
| ReportFormatters.CollectOk | utils/report_formatters.py:66-68 | collecting renderings that all succeed concatenates them |
| ReportFormatters.ChildrenInOrder | utils/report_formatters.py:66-68 | the children are rendered in order, one after another |
| ReportFormatters.FirstEntryIsHeading | utils/report_formatters.py:52-60 | a node's rendering starts with its heading, at the given prefix with the connector for its place |
| ReportFormatters.SiblingConnectors | utils/report_formatters.py:52-68 | each child's heading uses "'-- " if it is the last sibling and "\|-- " otherwise, under the parent prefix extended by four spaces if the parent is last and by "   \|" otherwise |
| ReportFormatters.TaskStatus | utils/report_formatters.py:98-101 | a result node's status name, PASS, FAIL or ERROR; no result gives no status |
| ReportFormatters.Dashes | utils/report_formatters.py:143 | n dashes |
| ReportFormatters.Metadata | utils/report_formatters.py:119-127 | four to six metadata writes, the second being the title line, each one line ended by a newline |
| ReportFormatters.TaskReport | utils/report_formatters.py:115-143 | the metadata, then the EVIDENCE header, then the evidence section; it raises exactly when the evidence section does |
| ReportFormatters.EvidenceSection | utils/report_formatters.py:129-143 | a raise writes nothing and happens only while rendering a result tree; otherwise the section ends with the separator; with no result it starts with "Result: None" and has the raw output line exactly when the output is truthy |
| ReportFormatters.OptionalMetadataLines | utils/report_formatters.py:119-127 | four metadata lines, plus a Target line iff the target is non-empty and an Expected line iff the expected value is non-empty |
| ReportFormatters.ReportEnding | utils/report_formatters.py:129-143 | the report raises iff the result tree has a node with string details; otherwise its last write is the separator of 80 dashes |
| ReportFormatters.ReportFile.constructor | utils/report_formatters.py:115 | a new file buffer is empty |
| ReportFormatters.ReportFile.Write | utils/report_formatters.py:119 | a write appends its text to the file |
| ReportFormatters.FormatTaskForFile | utils/report_formatters.py:115-143 | appends the task's metadata, the EVIDENCE header and the evidence section to the file, and raises exactly as the evidence section does |
| ReportFormatters.WriteMetadata | utils/report_formatters.py:115-127 | appends the metadata lines |
| ReportFormatters.WriteEvidence | utils/report_formatters.py:131-143 | appends the tree or the bare result with its optional raw output, then the separator |

## Left out

- Local execution: `subprocess.run` is the `LocalHost` oracle, which answers each command list with an output or an exception. The timeout is not modelled.
- Local execution: the effect of `shell=True` on a list (utils/execution_utils.py:33,38) is not modelled. The model records the list handed over, not what the shell then runs. On POSIX such a list becomes `/bin/sh -c args[0] args[1] ...`, so only the first item is a command and the others are the shell's `$0`, `$1`, .... For `local_script` the shell therefore runs a bare `bash` with the script path as `$0`, and the script itself never runs. For `mount_point` it runs a bare `findmnt`, which lists every mount whatever the target. `command_output`'s one-item list `[target]` is not affected.
- SSH: paramiko's client, channel and SFTP are the `Server` oracle. It decides which credentials are accepted, what each command prints and whether SFTP works. The 30-second timeouts are not modelled.
- `os.path.abspath` and `os.path.exists` on scripts are part of `LocalHost`. `open` and `read` of a script give its content from `LocalHost.files`.
- `uuid.uuid4()` is the `hexes` parameter, which gives eight hex characters per call.
- The `csv` module's reader is the `CsvFile` input, already split into header and rows. `ast.literal_eval` is the `LiteralEval` oracle.
- `argparse` is the `Args` record. `getpass` is the `typed` input.
- `parse_arguments` and `setup_logging` of the command-line handler are not modelled, nor are logging, colour or console printing.
- `format_for_console` and `format_task_for_console` only print to the console, so they are not modelled.
- The report and session writers, `report_generator` and `main.py` are not part of this model.
- run_script and file_exists of `RemoteExecutor` (utils/remote_utils.py:117-126): no handler in the core calls them.
- `importlib` loading is the `Registry` map. The exact text of ModuleNotFoundError is the message parameter of the registry's miss.
- Python's `str()` of an output, a details dict or a list is the `Repr` parameter of the report model. Its exact text is not modelled.
- The task's state before the audit is the loader state. The audit needs only that the tasks are distinct objects. The state of a task that a raising `run_audit` leaves is not modelled: no raise escapes the loop's try block.
- Cli.RunRemoteAudit: does not model an exception escaping `run_audit` inside the `try`/`finally`. The modelled audit never raises, so the `finally` block always runs after it returns.
- ReportFormatters.TaskStatus: the result node always carries a status, so the "ERROR" default of `get_task_status` and its non-dict branch are not reachable and are not modelled.
- ReportFormatters.WriteEvidence: the branch at utils/report_formatters.py:134-137, a dictionary result without a node type, cannot happen; every result the audit stores is a node.
- ReportFormatters.OneHeadingPerNode: a title key that is present with the value None renders as "STEP: None" in the source. The model has no such title: it treats None as a missing key, which renders as "Untitled Step".
- ReportFormatters.WriteEvidence: the truthiness of the raw output treats a dictionary as empty only when none of its keys is present.
- ReportFormatters.FormatChildren: the loop of `format_for_file` is modelled as a method of its own, called by `FormatForFile`.
- Formatting stops with AttributeError on a "Logic tree empty." result. The rest of that task's report, including the separator, is not written, and the model keeps this.
- Non-ASCII case mapping: `Lower` and `Upper` map only ASCII letters.
- Non-ASCII whitespace: `IsSpace`, and with it `Strip` and the whitespace split of `Normalize`, knows only the ASCII whitespace characters (space, \t, \n, \r, \v, \f and \x1c-\x1f). Python's `str.strip()` and `str.split()` also treat Unicode whitespace as whitespace: \x85, \xa0, \u1680, \u2000-\u200a, \u2028, \u2029, \u202f, \u205f, \u3000.
- An evidence key that is present with the value None is modelled like an absent key. In the source, `{"stdout": None}` makes `.get("stdout", "")` return None, and `algorithm_exact` would then raise at `.strip()`. No handler of the core builds such a dict.
- Remote.ExecOutcome: on a client whose connect failed after a credential was chosen, the exception of `exec_command` is always written as SSHException "SSH session not active". What paramiko raises there depends on how far the connection got: that SSHException for a transport that is no longer active, an AttributeError when no transport was made, or a channel error from the server. Only the message reaches the evidence, which has exit code 127 in every case.

