/** The evaluation engine: the expected-value grammar, the five string
    algorithms, single-check classification, nested AND/OR evidence trees and
    the routing between them. */
module OutputHandler {
  import opened Py
  import opened Evidence

  // ---------------------------------------------------------------------------
  // data_format

  datatype LogicType = And | Or | Single

  /** What data_format extracts from a task. */
  datatype Formatted = Formatted(
    stdout: string,
    exitCode: int,
    expectedExitCode: int,
    conditions: seq<string>,
    logic: LogicType)

  /** The expected-value grammar: `;;` (looked for first) means AND, `||` means OR,
      anything else is a single condition or, when blank, none. */
  function ParseExpected(value: string): (r: (seq<string>, LogicType))
    ensures r.1 == And <==> IsSubstring(";;", value)
    ensures r.1 == Or <==> !IsSubstring(";;", value) && IsSubstring("||", value)
    ensures r.1 == And ==> r.0 == StripAll(Split(value, ";;"))
    ensures r.1 == Or ==> r.0 == StripAll(Split(value, "||"))
    ensures r.1 != Single ==> |r.0| >= 1
    ensures r.1 == Single ==> r.0 == (if Strip(value) == "" then [] else [Strip(value)])
  {
    if IsSubstring(";;", value) then (StripAll(Split(value, ";;")), And)
    else if IsSubstring("||", value) then (StripAll(Split(value, "||")), Or)
    else (if Strip(value) == "" then [] else [Strip(value)], Single)
  }

  /** The conditions of an AND or OR value are its pieces, stripped, where the
      pieces joined back with the separator give the value: nothing is lost and
      empty pieces are kept. */
  lemma ParseExpectedPieces(value: string)
    ensures var r := ParseExpected(value);
            r.1 != Single ==>
              var sep := if r.1 == And then ";;" else "||";
              exists pieces :: Join(pieces, sep) == value && r.0 == StripAll(pieces)
  {
    var r := ParseExpected(value);
    if r.1 == And {
      SplitJoin(value, ";;");
    } else if r.1 == Or {
      SplitJoin(value, "||");
    }
  }

  /** The success code read from the parameters (lines 17-23). It is computed
      but no algorithm reads it. */
  function ExpectedExitCode(params: PyValue): int {
    var raw := if params.PDict? && "success_code" in params.entries
               then params.entries["success_code"] else PInt(0);
    var code :=
      if raw.PList? then
        (if raw.items != [] && raw.items[0] != PStr("") then raw.items[0] else PInt(0))
      else raw;
    match code
    case PInt(i) => i
    case PBool(b) => if b then 1 else 0
    case PStr(s) => ParseInt(s).GetOr(0)
    case _ => 0
  }

  /** data_format: evidence that is not a dict gives no stdout, exit code -1,
      no conditions and AND; a dict gives its stdout (empty when absent), its
      exit code (-1 when absent) and the parsed expected value. */
  function DataFormat(t: CheckSpec): (f: Formatted)
    ensures !t.actualOutput.Dict? ==> f == Formatted("", -1, 0, [], And)
    ensures t.actualOutput.Dict? ==>
              f.stdout == t.actualOutput.d.stdout.GetOr("")
              && f.exitCode == t.actualOutput.d.exitCode.GetOr(-1)
              && (f.conditions, f.logic) == ParseExpected(t.expectedValue)
    ensures f.expectedExitCode == if t.actualOutput.Dict? then ExpectedExitCode(t.parameters) else 0
    ensures f.logic == And <==> !t.actualOutput.Dict? || IsSubstring(";;", t.expectedValue)
    ensures f.logic == Single ==> |f.conditions| <= 1
  {
    match t.actualOutput
    case Dict(d) =>
      var parsed := ParseExpected(t.expectedValue);
      Formatted(d.stdout.GetOr(""), d.exitCode.GetOr(-1), ExpectedExitCode(t.parameters),
                parsed.0, parsed.1)
    case _ => Formatted("", -1, 0, [], And)
  }

  // ---------------------------------------------------------------------------
  // The five algorithms

  /** Whether some condition, lower-cased, equals `target`. */
  function AnyEqual(conditions: seq<string>, target: string): (r: bool)
    ensures r <==> exists i :: 0 <= i < |conditions| && Lower(conditions[i]) == target
  {
    if conditions == [] then false
    else Lower(conditions[0]) == target || AnyEqual(conditions[1..], target)
  }

  /** Exact: the same test on the OR branch and the other one. */
  function AlgorithmExact(t: CheckSpec): (r: bool)
    ensures var f := DataFormat(t);
            r <==> exists i :: 0 <= i < |f.conditions| && Lower(f.conditions[i]) == Strip(Lower(f.stdout))
  {
    var f := DataFormat(t);
    if f.logic == Or then AnyEqual(f.conditions, Strip(Lower(f.stdout)))
    else AnyEqual(f.conditions, Strip(Lower(f.stdout)))
  }

  /** Null: `not bool(stdout)` on the stdout as data_format returns it. */
  function AlgorithmNull(t: CheckSpec): (r: bool)
    ensures r <==> DataFormat(t).stdout == ""
  {
    !(|DataFormat(t).stdout| > 0)
  }

  /** Not Null: `bool(stdout)`. */
  function AlgorithmNotNull(t: CheckSpec): (r: bool)
    ensures r == !AlgorithmNull(t)
  {
    |DataFormat(t).stdout| > 0
  }

  /** A condition occurs in an already normalised text once it is normalised too. */
  predicate Occurs(condition: string, hay: string) {
    IsSubstring(Normalize(condition), hay)
  }

  predicate SomeOccurs(conditions: seq<string>, hay: string) {
    exists i :: 0 <= i < |conditions| && Occurs(conditions[i], hay)
  }

  predicate AllOccur(conditions: seq<string>, hay: string) {
    forall i :: 0 <= i < |conditions| ==> Occurs(conditions[i], hay)
  }

  /** The rule Contain applies to normalised text: some condition under OR,
      every condition otherwise. */
  predicate ContainRule(f: Formatted) {
    if f.logic == Or then SomeOccurs(f.conditions, Normalize(f.stdout))
    else AllOccur(f.conditions, Normalize(f.stdout))
  }

  /** The rule Does Not Contain applies, on either branch: no condition occurs. */
  predicate DoesNotContainRule(f: Formatted) {
    !SomeOccurs(f.conditions, Normalize(f.stdout))
  }

  /** algorithm_contain: data_format, normalisation of the stdout, then the
      loop over the conditions. */
  method AlgorithmContain(t: CheckSpec) returns (r: bool)
    ensures r == ContainRule(DataFormat(t))
  {
    var data := DataFormat(t);
    var hay := Normalize(data.stdout);
    r := ContainLoop(data.conditions, hay, data.logic == Or);
  }

  /** The loops of algorithm_contain, with early return: the first condition
      found decides under OR, the first one missing decides otherwise. */
  method ContainLoop(conditions: seq<string>, hay: string, isOr: bool) returns (r: bool)
    ensures r == if isOr then SomeOccurs(conditions, hay) else AllOccur(conditions, hay)
  {
    if isOr {
      for i := 0 to |conditions|
        invariant forall j :: 0 <= j < i ==> !Occurs(conditions[j], hay)
      {
        if Occurs(conditions[i], hay) {
          return true;
        }
      }
      return false;
    } else {
      for i := 0 to |conditions|
        invariant forall j :: 0 <= j < i ==> Occurs(conditions[j], hay)
      {
        if !Occurs(conditions[i], hay) {
          return false;
        }
      }
      return true;
    }
  }

  /** algorithm_does_not_contain: data_format, normalisation of the stdout,
      then the loop over the conditions. */
  method AlgorithmDoesNotContain(t: CheckSpec) returns (r: bool)
    ensures r == DoesNotContainRule(DataFormat(t))
  {
    var data := DataFormat(t);
    var hay := Normalize(data.stdout);
    r := DoesNotContainLoop(data.conditions, hay, data.logic == Or);
  }

  /** The loops of algorithm_does_not_contain: the OR branch and the other one
      are the same loop, returning false at the first condition found. */
  method DoesNotContainLoop(conditions: seq<string>, hay: string, isOr: bool) returns (r: bool)
    ensures r == !SomeOccurs(conditions, hay)
  {
    if isOr {
      for i := 0 to |conditions|
        invariant forall j :: 0 <= j < i ==> !Occurs(conditions[j], hay)
      {
        if Occurs(conditions[i], hay) {
          return false;
        }
      }
      return true;
    } else {
      for i := 0 to |conditions|
        invariant forall j :: 0 <= j < i ==> !Occurs(conditions[j], hay)
      {
        if Occurs(conditions[i], hay) {
          return false;
        }
      }
      return true;
    }
  }

  // ---------------------------------------------------------------------------
  // ALGORITHM_GROUPS

  datatype Algorithm = Exact | Contain | DoesNotContain | Null | NotNull

  const AlgorithmGroups: map<string, Algorithm> :=
    map["Exact" := Exact, "Contain" := Contain, "Does Not Contain" := DoesNotContain,
        "Null" := Null, "Not Null" := NotNull]

  /** The registry key of each algorithm. */
  function AlgorithmKey(a: Algorithm): string {
    match a
    case Exact => "Exact"
    case Contain => "Contain"
    case DoesNotContain => "Does Not Contain"
    case Null => "Null"
    case NotNull => "Not Null"
  }

  /** ALGORITHM_GROUPS.get(name): exactly the five keys resolve, each to the
      algorithm it names. */
  function AlgorithmNamed(name: string): (a: Option<Algorithm>)
    ensures a.Some? <==> name in {"Exact", "Contain", "Does Not Contain", "Null", "Not Null"}
    ensures a.Some? ==> AlgorithmKey(a.value) == name
  {
    if name in AlgorithmGroups then Some(AlgorithmGroups[name]) else None
  }

  /** Running the algorithm an entry of ALGORITHM_GROUPS holds. */
  predicate Holds(a: Algorithm, t: CheckSpec) {
    match a
    case Exact => AlgorithmExact(t)
    case Contain => ContainRule(DataFormat(t))
    case DoesNotContain => DoesNotContainRule(DataFormat(t))
    case Null => AlgorithmNull(t)
    case NotNull => AlgorithmNotNull(t)
  }

  // ---------------------------------------------------------------------------
  // simple_check

  /** Python's text for a missing-or-present string value in an f-string. */
  function OptText(o: Option<string>): string {
    match o
    case Some(s) => s
    case None => "None"
  }

  /** The AttributeError `.get` raises on a value that is not a dict. */
  function NoGet(o: Output): Exception {
    match o
    case Text(_) => Exception(AttributeError, "'str' object has no attribute 'get'")
    case _ => Exception(AttributeError, "'NoneType' object has no attribute 'get'")
  }

  predicate SimpleErrs(d: EvidenceDict, algorithm: string) {
    d.exitCode.None? || d.exitCode == Some(127) || AlgorithmNamed(algorithm).None?
  }

  function SimpleCheck(t: CheckSpec): (r: Result<ResultNode>)
    ensures r.Raised? <==> !t.actualOutput.Dict?
    ensures r.Ok? ==> r.value.Action? && r.value.title == t.title
                      && r.value.details.Judged? && r.value.details.evidence == t.actualOutput
    ensures r.Ok? ==> (r.value.status == Error <==> SimpleErrs(t.actualOutput.d, t.algorithm))
    ensures r.Ok? ==> (r.value.status == Pass <==>
                       !SimpleErrs(t.actualOutput.d, t.algorithm)
                       && Holds(AlgorithmNamed(t.algorithm).value, t))
  {
    match t.actualOutput
    case Dict(d) =>
      var stderrOrDefault := if d.stderr.Some? then d.stderr
                             else Some("Unknown Error output. Cuz output is empty");
      if d.exitCode.None? then
        Ok(Action(t.title, Error,
                  Judged("Evidence not Found. Expected dict with 'exit_code'.", d.stderr, t.actualOutput)))
      else if d.exitCode.value == 127 then
        Ok(Action(t.title, Error,
                  Judged("Command not found. Stderr: " + OptText(d.stderr), stderrOrDefault, t.actualOutput)))
      else
        (match AlgorithmNamed(t.algorithm)
        case None =>
          Ok(Action(t.title, Error,
                    Judged("Unknown algorithm specified: '" + t.algorithm + "'", stderrOrDefault, t.actualOutput)))
        case Some(a) =>
          if Holds(a, t) then
            Ok(Action(t.title, Pass,
                      Judged("Check passed successfully for algorithm '" + t.algorithm
                             + "' with expected value '" + t.expectedValue + "'.",
                             stderrOrDefault, t.actualOutput)))
          else
            Ok(Action(t.title, Fail,
                      Judged("Check failed for algorithm '" + t.algorithm
                             + "' with expected value '" + t.expectedValue + "'.",
                             stderrOrDefault, t.actualOutput))))
    case _ => Raised(NoGet(t.actualOutput))
  }

  // ---------------------------------------------------------------------------
  // complex_check

  /** str(node.get('pass_stop_check', 'false')).lower() == 'true' */
  predicate StopFlag(v: PyValue) {
    match v
    case PBool(b) => b
    case PStr(s) => Lower(s) == "true"
    case _ => false
  }

  /** The sub-task a leaf is judged as. */
  function LeafSpec(n: EvidenceNode): CheckSpec
    requires n.Leaf?
  {
    CheckSpec(Some(n.title.GetOr("Untitled Step")), n.algorithm, n.expectedValue, n.params, n.rawEvidence)
  }

  /** A leaf is judged by simple_check under its title (or "Untitled Step")
      and raises exactly when its evidence is not a dict; a group records
      its logic upper-cased and raises when that logic is not a string. */
  function EvalNode(n: EvidenceNode): (r: Result<ResultNode>)
    ensures n.Leaf? ==> (r.Raised? <==> !n.rawEvidence.Dict?)
    ensures n.Leaf? && r.Ok? ==> r.value.Action? && r.value.title == Some(n.title.GetOr("Untitled Step"))
    ensures n.Group? && !n.logic.PStr? ==> r.Raised?
    ensures n.Group? && r.Ok? ==> r.value.Logic? && r.value.logic == Upper(n.logic.s)
                                  && |r.value.steps| <= |n.steps|
    decreases n, 2
  {
    match n
    case Leaf(_, _, _, _, _, _) => SimpleCheck(LeafSpec(n))
    case Group(logic, steps, _) => EvalGroup(logic, steps)
  }

  /** What evaluating each child on its own gives. */
  function Outcomes(steps: seq<EvidenceNode>): (os: seq<Result<ResultNode>>)
    ensures |os| == |steps|
    decreases steps, 0
  {
    seq(|steps|, i requires 0 <= i < |steps| => EvalNode(steps[i]))
  }

  /** A group: `.upper()` of its logic, then the loop over the children. */
  function EvalGroup(logic: PyValue, steps: seq<EvidenceNode>): (r: Result<ResultNode>)
    ensures !logic.PStr? ==> r.Raised?
    ensures r.Ok? ==> logic.PStr? && r.value.Logic? && r.value.logic == Upper(logic.s)
                      && |r.value.steps| <= |steps|
    decreases steps, 1
  {
    if !logic.PStr? then Raised(Exception(AttributeError, "object has no attribute 'upper'"))
    else
      var l := Upper(logic.s);
      match EvalSteps(l, steps, Outcomes(steps), l == "AND", false, [])
      case Raised(e) => Raised(e)
      case Ok(acc) =>
        Ok(Logic(l, if acc.1 then Error else if acc.0 then Pass else Fail, acc.2))
  }

  /** A child that ends its group's loop: a PASS that is flagged
      pass_stop_check, or any PASS under OR. */
  predicate Stops(l: string, step: EvidenceNode, r: ResultNode) {
    r.status == Pass && (StopFlag(step.passStop) || l == "OR")
  }

  /** The loop of complex_check from some child on, given what each remaining
      child evaluates to, with `passed` (is_passed), `errored` (has_error) and
      `done` (child_results) so far. Only the outcomes the loop reaches matter. */
  function EvalSteps(l: string, steps: seq<EvidenceNode>, outcomes: seq<Result<ResultNode>>,
                     passed: bool, errored: bool, done: seq<ResultNode>)
    : (r: Result<(bool, bool, seq<ResultNode>)>)
    requires |outcomes| == |steps|
    ensures r.Ok? ==> |done| <= |r.value.2| <= |done| + |steps|
    ensures r.Ok? && errored ==> r.value.1
    ensures r.Ok? && |r.value.2| < |done| + |steps| ==> r.value.0
    decreases |steps|
  {
    if steps == [] then Ok((passed, errored, done))
    else
      match outcomes[0]
      case Raised(e) => Raised(e)
      case Ok(r) =>
        var errored' := errored || r.status == Error;
        var done' := done + [r];
        if r.status == Pass && StopFlag(steps[0].passStop) then Ok((true, errored', done'))
        else
          var passed' := if l == "AND" && r.status != Pass then false else passed;
          if l == "OR" && r.status == Pass then Ok((true, errored', done'))
          else EvalSteps(l, steps[1..], outcomes[1..], passed', errored', done')
  }

  /** Whether the evaluated children `rs` ended on a child that stops the group. */
  predicate Stopped(l: string, steps: seq<EvidenceNode>, rs: seq<ResultNode>)
    requires |rs| <= |steps|
  {
    |rs| > 0 && Stops(l, steps[|rs| - 1], rs[|rs| - 1])
  }

  predicate AnyError(rs: seq<ResultNode>) {
    exists i :: 0 <= i < |rs| && rs[i].status == Error
  }

  predicate AllPass(rs: seq<ResultNode>) {
    forall i :: 0 <= i < |rs| ==> rs[i].status == Pass
  }

  /** The children the loop records follow the ones recorded before it. */
  lemma {:induction false} EvalStepsExtends(l: string, steps: seq<EvidenceNode>,
                                            outcomes: seq<Result<ResultNode>>,
                                            passed: bool, errored: bool, done: seq<ResultNode>)
    requires |outcomes| == |steps|
    requires EvalSteps(l, steps, outcomes, passed, errored, done).Ok?
    ensures var acc := EvalSteps(l, steps, outcomes, passed, errored, done).value;
            |done| <= |acc.2| <= |done| + |steps| && acc.2[..|done|] == done
    decreases |steps|
  {
    if steps != [] {
      var r := outcomes[0].value;
      var done' := done + [r];
      if !Stops(l, steps[0], r) {
        var passed' := if l == "AND" && r.status != Pass then false else passed;
        var errored' := errored || r.status == Error;
        EvalStepsExtends(l, steps[1..], outcomes[1..], passed', errored', done');
        var acc := EvalSteps(l, steps, outcomes, passed, errored, done).value;
        assert acc.2[..|done|] == acc.2[..|done'|][..|done|];
      }
    }
  }

  /** What the loop of complex_check computes, from any intermediate state:
      the children it records are the outcomes of a prefix of the remaining
      steps, it stops exactly at the first child that stops it, ERROR is
      sticky, and is_passed ends true through a stop or, under AND, when it
      started true and every recorded child passed. */
  lemma {:induction false} EvalStepsShape(l: string, steps: seq<EvidenceNode>,
                                          outcomes: seq<Result<ResultNode>>,
                                          passed: bool, errored: bool, done: seq<ResultNode>)
    requires |outcomes| == |steps|
    requires EvalSteps(l, steps, outcomes, passed, errored, done).Ok?
    ensures var acc := EvalSteps(l, steps, outcomes, passed, errored, done).value;
            |done| <= |acc.2| <= |done| + |steps| && acc.2[..|done|] == done
    ensures var acc := EvalSteps(l, steps, outcomes, passed, errored, done).value;
            var rs := acc.2[|done|..];
            && (forall i :: 0 <= i < |rs| ==> outcomes[i] == Ok(rs[i]))
            && (forall i :: 0 <= i < |rs| - 1 ==> !Stops(l, steps[i], rs[i]))
            && (|rs| < |steps| ==> Stopped(l, steps, rs))
            && (acc.1 <==> errored || AnyError(rs))
            && (acc.0 <==> Stopped(l, steps, rs) || (passed && (l == "AND" ==> AllPass(rs))))
    decreases |steps|
  {
    EvalStepsExtends(l, steps, outcomes, passed, errored, done);
    var acc := EvalSteps(l, steps, outcomes, passed, errored, done).value;
    if steps == [] {
      assert acc.2[|done|..] == [];
    } else {
      var r := outcomes[0].value;
      var errored' := errored || r.status == Error;
      var done' := done + [r];
      var passed' := if l == "AND" && r.status != Pass then false else passed;
      if Stops(l, steps[0], r) {
        assert acc == (true, errored', done');
        assert acc.2[|done|..] == [r];
      } else {
        assert acc == EvalSteps(l, steps[1..], outcomes[1..], passed', errored', done').value;
        EvalStepsShape(l, steps[1..], outcomes[1..], passed', errored', done');
        var rs := acc.2[|done|..];
        var rs' := acc.2[|done'|..];
        assert rs == [r] + rs' by {
          assert acc.2[..|done'|] == done';
          assert acc.2[|done|] == r;
        }
        ShapeStep(l, steps, outcomes, r, rs, rs');
      }
    }
  }

  /** One step of EvalStepsShape: the facts about the children recorded after
      the first one carry over to all of them. */
  lemma ShapeStep(l: string, steps: seq<EvidenceNode>, outcomes: seq<Result<ResultNode>>,
                  r: ResultNode, rs: seq<ResultNode>, rs': seq<ResultNode>)
    requires |outcomes| == |steps| > 0 && outcomes[0] == Ok(r) && !Stops(l, steps[0], r)
    requires rs == [r] + rs' && |rs'| <= |steps| - 1
    requires forall i :: 0 <= i < |rs'| ==> outcomes[1..][i] == Ok(rs'[i])
    requires forall i :: 0 <= i < |rs'| - 1 ==> !Stops(l, steps[1..][i], rs'[i])
    requires |rs'| < |steps| - 1 ==> Stopped(l, steps[1..], rs')
    ensures forall i :: 0 <= i < |rs| ==> outcomes[i] == Ok(rs[i])
    ensures forall i :: 0 <= i < |rs| - 1 ==> !Stops(l, steps[i], rs[i])
    ensures |rs| < |steps| ==> Stopped(l, steps, rs)
    ensures Stopped(l, steps, rs) <==> Stopped(l, steps[1..], rs')
    ensures AnyError(rs) <==> r.status == Error || AnyError(rs')
    ensures AllPass(rs) <==> r.status == Pass && AllPass(rs')
  {
    forall i | 0 <= i < |rs|
      ensures outcomes[i] == Ok(rs[i])
    {
      if i > 0 {
        assert outcomes[i] == outcomes[1..][i - 1];
      }
    }
    forall i | 0 <= i < |rs| - 1
      ensures !Stops(l, steps[i], rs[i])
    {
      if i > 0 {
        assert steps[i] == steps[1..][i - 1];
      }
    }
    if |rs'| > 0 {
      assert steps[|rs| - 1] == steps[1..][|rs'| - 1];
    }
    if AnyError(rs') {
      var i :| 0 <= i < |rs'| && rs'[i].status == Error;
      assert rs[i + 1] == rs'[i];
    }
    if AnyError(rs) && r.status != Error {
      var i :| 0 <= i < |rs| && rs[i].status == Error;
      assert i > 0 && rs'[i - 1] == rs[i];
    }
    if r.status == Pass && AllPass(rs') {
      forall i | 0 <= i < |rs| ensures rs[i].status == Pass {
        if i > 0 { assert rs[i] == rs'[i - 1]; }
      }
    }
    if AllPass(rs) {
      forall i | 0 <= i < |rs'| ensures rs'[i].status == Pass {
        assert rs'[i] == rs[i + 1];
      }
    }
  }

  /** complex_check on a group whose evaluation returned: the children are the
      evaluated prefix, evaluation stops exactly at the first PASS under OR or
      the first PASS flagged pass_stop_check, ERROR dominates, and otherwise
      the group passes through a stop or, under AND, when every child passed. */
  lemma GroupOutcome(logic: string, steps: seq<EvidenceNode>)
    requires EvalGroup(PStr(logic), steps).Ok?
    ensures var g := EvalGroup(PStr(logic), steps).value;
            var l := Upper(logic);
            var rs := g.steps;
            && g.Logic? && g.logic == l
            && |rs| <= |steps|
            && (forall i :: 0 <= i < |rs| ==> Outcomes(steps)[i] == Ok(rs[i]))
            && (forall i :: 0 <= i < |rs| - 1 ==> !Stops(l, steps[i], rs[i]))
            && (|rs| < |steps| ==> Stopped(l, steps, rs))
            && (g.status == Error <==> AnyError(rs))
            && (g.status == Pass <==> !AnyError(rs) && (Stopped(l, steps, rs) || (l == "AND" && AllPass(rs))))
  {
    var l := Upper(logic);
    EvalStepsShape(l, steps, Outcomes(steps), l == "AND", false, []);
    var acc := EvalSteps(l, steps, Outcomes(steps), l == "AND", false, []).value;
    assert acc.2[0..] == acc.2;
  }

  /** The children a group records are what each of them evaluates to. */
  lemma GroupChildren(logic: string, steps: seq<EvidenceNode>, i: nat)
    requires EvalGroup(PStr(logic), steps).Ok?
    requires i < |EvalGroup(PStr(logic), steps).value.steps|
    ensures i < |steps| && EvalNode(steps[i]) == Ok(EvalGroup(PStr(logic), steps).value.steps[i])
  {
    GroupOutcome(logic, steps);
  }

  /** Under AND, without a pass_stop_check escape, one child that did not pass
      fails the group unless some child errored. */
  lemma AndFailsOnNonPass(logic: string, steps: seq<EvidenceNode>, i: nat)
    requires Upper(logic) == "AND"
    requires EvalGroup(PStr(logic), steps).Ok?
    requires var rs := EvalGroup(PStr(logic), steps).value.steps;
             i < |rs| && rs[i].status != Pass
             && forall j :: 0 <= j < |steps| ==> !StopFlag(steps[j].passStop)
    ensures EvalGroup(PStr(logic), steps).value.status != Pass
  {
    GroupOutcome(logic, steps);
  }

  /** A group whose logic is neither AND nor OR passes only through a child
      flagged pass_stop_check. */
  lemma OtherLogicPassesOnlyByStop(logic: string, steps: seq<EvidenceNode>)
    requires Upper(logic) != "AND" && Upper(logic) != "OR"
    requires EvalGroup(PStr(logic), steps).Ok?
    requires EvalGroup(PStr(logic), steps).value.status == Pass
    ensures exists i :: 0 <= i < |steps| && StopFlag(steps[i].passStop) && Outcomes(steps)[i].Ok?
                        && Outcomes(steps)[i].value.status == Pass
  {
    GroupOutcome(logic, steps);
    var rs := EvalGroup(PStr(logic), steps).value.steps;
    var k := |rs| - 1;
    assert Outcomes(steps)[k] == Ok(rs[k]);
  }

  /** Under OR, a FAIL then a PASS settle the group as PASS; the children after
      them are never evaluated, so one that would raise changes nothing. */
  lemma OrStopsAtFirstPass(logic: string, steps: seq<EvidenceNode>)
    requires Upper(logic) == "OR" && |steps| >= 2
    requires Outcomes(steps)[0].Ok? && Outcomes(steps)[0].value.status == Fail
    requires Outcomes(steps)[1].Ok? && Outcomes(steps)[1].value.status == Pass
    ensures EvalGroup(PStr(logic), steps)
            == Ok(Logic("OR", Pass, [Outcomes(steps)[0].value, Outcomes(steps)[1].value]))
  {
    OrLoopStopsAtSecond(steps, Outcomes(steps));
  }

  lemma OrLoopStopsAtSecond(steps: seq<EvidenceNode>, os: seq<Result<ResultNode>>)
    requires |os| == |steps| >= 2
    requires os[0].Ok? && os[0].value.status == Fail
    requires os[1].Ok? && os[1].value.status == Pass
    ensures EvalSteps("OR", steps, os, false, false, []) == Ok((true, false, [os[0].value, os[1].value]))
  {
    var r0, r1 := os[0].value, os[1].value;
    assert "OR" != "AND";
    assert os[1..][0] == os[1] && steps[1..] != [];
    assert [] + [r0] == [r0] && [r0] + [r1] == [r0, r1];
    assert EvalSteps("OR", steps[1..], os[1..], false, false, [r0]) == Ok((true, false, [r0, r1]));
  }

  /** complex_check: recursion into groups, a loop over the children with
      early exit. */
  method ComplexCheck(n: EvidenceNode) returns (r: Result<ResultNode>)
    ensures r == EvalNode(n)
    decreases n
  {
    if n.Leaf? {
      return SimpleCheck(LeafSpec(n));
    }
    if !n.logic.PStr? {
      return Raised(Exception(AttributeError, "object has no attribute 'upper'"));
    }
    var l := Upper(n.logic.s);
    ghost var outcomes := Outcomes(n.steps);
    var passed, errored := l == "AND", false;
    var children: seq<ResultNode> := [];
    var i := 0;
    while i < |n.steps|
      invariant 0 <= i <= |n.steps|
      invariant EvalSteps(l, n.steps[i..], outcomes[i..], passed, errored, children)
                == EvalSteps(l, n.steps, outcomes, l == "AND", false, [])
    {
      var sub := ComplexCheck(n.steps[i]);
      assert outcomes[i..][0] == sub;
      if sub.Raised? {
        return Raised(sub.exc);
      }
      var verdict := sub.value.status;
      children := children + [sub.value];
      if verdict == Error {
        errored := true;
      }
      if verdict == Pass && StopFlag(n.steps[i].passStop) {
        passed := true;
        break;
      }
      if l == "AND" && verdict != Pass {
        passed := false;
      }
      if l == "OR" && verdict == Pass {
        passed := true;
        break;
      }
      assert n.steps[i..][1..] == n.steps[i + 1..];
      assert outcomes[i..][1..] == outcomes[i + 1..];
      i := i + 1;
    }
    var status := if errored then Error else if passed then Pass else Fail;
    return Ok(Logic(l, status, children));
  }

  // ---------------------------------------------------------------------------
  // process_with_algorithm

  /** The logic of the implicit root group: the payload's, unless falsy. */
  function RootLogic(d: EvidenceDict): (l: PyValue)
    ensures Truthy(l)
    ensures Truthy(d.logic) ==> l == d.logic
  {
    if Truthy(d.logic) then d.logic else PStr("AND")
  }

  function ProcessWithAlgorithm(t: CheckSpec): (r: Result<ResultNode>)
    ensures t.actualOutput.Dict? && t.actualOutput.d.error.Some? ==>
              r == Ok(Action(t.title, Error, EvidenceAsDetails(t.actualOutput.d)))
    ensures t.actualOutput.Dict? && t.actualOutput.d.error.None? && t.actualOutput.d.unified ==>
              r == (if t.actualOutput.d.evidenceTree == []
                    then Ok(Action(t.title, Error, Note("Logic tree empty.")))
                    else EvalGroup(RootLogic(t.actualOutput.d), t.actualOutput.d.evidenceTree))
    ensures !(t.actualOutput.Dict? && (t.actualOutput.d.error.Some? || t.actualOutput.d.unified)) ==>
              r == SimpleCheck(t)
  {
    match t.actualOutput
    case Dict(d) =>
      if d.error.Some? then Ok(Action(t.title, Error, EvidenceAsDetails(d)))
      else if d.unified then
        if d.evidenceTree == [] then Ok(Action(t.title, Error, Note("Logic tree empty.")))
        else EvalGroup(RootLogic(d), d.evidenceTree)
      else SimpleCheck(t)
    case _ => SimpleCheck(t)
  }
}
