/** The data the evaluation engine consumes and produces: evidence records,
    evidence trees and result nodes. */
module Evidence {
  import opened Py

  /** The classified outcome of a check or a group. */
  datatype Status = Pass | Fail | Error

  function StatusName(s: Status): string {
    match s
    case Pass => "PASS"
    case Fail => "FAIL"
    case Error => "ERROR"
  }

  /** An evidence dict, by the keys the engine reads. A key that is absent is
      None (or, for `unified`, false; for `logic`, PNone; for `evidenceTree`,
      the empty list, which is what `.get` defaults them to). `extra` holds
      any other keys with their text, in insertion order. */
  datatype EvidenceDict = EvidenceDict(
    stdout: Option<string>,
    stderr: Option<string>,
    exitCode: Option<int>,
    error: Option<string>,
    unified: bool,
    logic: PyValue,
    evidenceTree: seq<EvidenceNode>,
    extra: seq<(string, string)>)

  /** What an executor hands back and a task keeps as `actual_output`:
      a dict, a bare string, or None (absent). */
  datatype Output = Dict(d: EvidenceDict) | Text(s: string) | NoValue

  /** A node of a nested evidence tree. A dict with a `logic` key is a group;
      any other dict is a leaf carrying a single check. `passStop` is the
      node's `pass_stop_check` value (PNone when absent). */
  datatype EvidenceNode =
    | Group(logic: PyValue, steps: seq<EvidenceNode>, passStop: PyValue)
    | Leaf(algorithm: string, expectedValue: string, rawEvidence: Output,
           params: PyValue, title: Option<string>, passStop: PyValue)

  /** The `details` entry of an action node in its four shapes. */
  datatype Details =
      /** {reason, error, evidence} built by simple_check; `error` is the stderr value. */
    | Judged(reason: string, error: Option<string>, evidence: Output)
      /** the task's own evidence dict, when it carried an `error` key */
    | EvidenceAsDetails(dict: EvidenceDict)
      /** a bare string, such as "Logic tree empty." */
    | Note(text: string)
      /** {error: ...} from the audit loop */
    | HandlerFailure(message: string)

  /** A result tree: action_node leaves and logic_node groups. An action node
      without a `title` key has title None. */
  datatype ResultNode =
    | Action(title: Option<string>, status: Status, details: Details)
    | Logic(logic: string, status: Status, steps: seq<ResultNode>)

  /** The fields of a task that the judging functions read. */
  datatype CheckSpec = CheckSpec(
    title: Option<string>,
    algorithm: string,
    expectedValue: string,
    parameters: PyValue,
    actualOutput: Output)

  /** A flat {stdout, stderr, exit_code} evidence dict. */
  function FlatEvidence(stdout: string, stderr: string, exitCode: int): EvidenceDict {
    EvidenceDict(Some(stdout), Some(stderr), Some(exitCode), None, false, PNone, [], [])
  }
}
