/** The task record: what the CSV loader fills in, and the three fields the
    audit loop writes. */
module AuditTasks {
  import opened Py
  import opened Evidence

  /** The loader's fields, which nothing changes afterwards. */
  datatype TaskDef = TaskDef(
    id: string,
    level: string,
    profile: seq<string>,
    domain: string,
    title: string,
    checkType: string,
    target: string,
    parameters: PyValue,
    algorithm: string,
    expectedValue: string)

  /** The lifecycle the audit loop drives a task through. The status a task
      has before the loop (set by the task class itself) is not part of this
      model; it is `Pending` here. */
  datatype TaskStatus = Pending | Running | Completed

  function TaskStatusName(s: TaskStatus): string {
    match s
    case Pending => "PENDING"
    case Running => "RUNNING"
    case Completed => "COMPLETED"
  }

  class AuditTask {
    const def: TaskDef
    var status: TaskStatus
    var actualOutput: Output
    var finalResult: Option<ResultNode>
    /** Every status written to the task, in order. */
    ghost var trail: seq<TaskStatus>

    /** The fields as the loader leaves them, before the audit loop. */
    ghost predicate Unstarted()
      reads this
    {
      status == Pending && actualOutput == NoValue && finalResult == None && trail == []
    }

    constructor (def: TaskDef)
      ensures this.def == def && Unstarted()
    {
      this.def := def;
      status := Pending;
      actualOutput := NoValue;
      finalResult := None;
      trail := [];
    }
  }

  /** The loader records of a list of tasks. */
  function Defs(tasks: seq<AuditTask>): (ds: seq<TaskDef>)
    ensures |ds| == |tasks| && forall i :: 0 <= i < |tasks| ==> ds[i] == tasks[i].def
  {
    seq(|tasks|, i requires 0 <= i < |tasks| => tasks[i].def)
  }

  /** The task objects of a list. */
  function Objects(tasks: seq<AuditTask>): set<object> {
    set i | 0 <= i < |tasks| :: tasks[i]
  }
}
