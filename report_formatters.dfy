/** The plain-text rendering of result trees and task records that goes into
    the detailed report. */
module ReportFormatters {
  import opened Py
  import opened Evidence
  import opened AuditTasks

  /** Python's `str()` of the values the formatter interpolates without
      building them itself: an actual output, a details dict, and a list of
      strings. The model takes them as given. */
  datatype Repr = Repr(output: Output -> string, details: Details -> string, strings: seq<string> -> string)

  /** One line of a rendered tree, without its newline: the heading of a node,
      or one of the detail lines printed under an action node. */
  datatype Entry =
    | Heading(prefix: string, connector: string, caption: string)
    | Detail(prefix: string, text: string)

  function Line(e: Entry): string {
    match e
    case Heading(p, c, l) => p + c + l
    case Detail(p, t) => p + t
  }

  /** The text of a list of entries, each ended by a newline. */
  function Render(es: seq<Entry>): string
    decreases |es|
  {
    if es == [] then "" else Line(es[0]) + "\n" + Render(es[1..])
  }

  lemma {:induction false} RenderAppend(a: seq<Entry>, b: seq<Entry>)
    ensures Render(a + b) == Render(a) + Render(b)
    decreases |a|
  {
    if a == [] {
      assert a + b == b;
    } else {
      assert (a + b)[0] == a[0] && (a + b)[1..] == a[1..] + b;
      RenderAppend(a[1..], b);
    }
  }

  /** The connector in front of a node's heading: a corner for the last
      sibling, a tee for the others. */
  function Connector(isLast: bool): string {
    if isLast then "   '-- " else "   |-- "
  }

  /** The prefix of the lines below a node. */
  function ChildPrefix(prefix: string, isLast: bool): string {
    prefix + (if isLast then "    " else "   |")
  }

  /** The heading text of a node. */
  function Label(n: ResultNode): string {
    match n
    case Logic(logic, _, _) => "[**] LOGIC GROUP (" + logic + ")"
    case Action(title, status, _) => "[*" + StatusName(status) + "*] STEP: " + title.GetOr("Untitled Step")
  }

  /** The `steps_results` of a node; an action node has none. */
  function Steps(n: ResultNode): seq<ResultNode> {
    if n.Logic? then n.steps else []
  }

  /** `.get(key)` on the keys of an evidence dict that the record does not name. */
  function Lookup(entries: seq<(string, string)>, key: string): (r: Option<string>)
    ensures r.Some? <==> exists k :: 0 <= k < |entries| && entries[k].0 == key
    decreases |entries|
  {
    if entries == [] then None
    else if entries[0].0 == key then Some(entries[0].1)
    else Lookup(entries[1..], key)
  }

  /** A value that is present and a non-empty string, which is what `if value:` accepts. */
  predicate Filled(o: Option<string>) {
    o.Some? && o.value != ""
  }

  /** `details.get("error")`. */
  function ErrorOf(d: Details): Option<string> {
    match d
    case Judged(_, error, _) => error
    case EvidenceAsDetails(dict) => dict.error
    case HandlerFailure(message) => Some(message)
    case Note(_) => None
  }

  /** `details.get("reason")`. */
  function ReasonOf(d: Details): Option<string> {
    match d
    case Judged(reason, _, _) => Some(reason)
    case EvidenceAsDetails(dict) => Lookup(dict.extra, "reason")
    case HandlerFailure(_) => None
    case Note(_) => None
  }

  /** The text of `details.get("evidence")` in an f-string. */
  function EvidenceOf(d: Details, show: Repr): string {
    match d
    case Judged(_, _, evidence) => show.output(evidence)
    case EvidenceAsDetails(dict) => Lookup(dict.extra, "evidence").GetOr("None")
    case HandlerFailure(_) => "None"
    case Note(_) => "None"
  }

  /** What calling `.get` on a `details` that is a string raises. */
  const StrHasNoGet := Exception(AttributeError, "'str' object has no attribute 'get'")

  /** The detail lines of a node, under the given prefix. */
  function DetailEntries(n: ResultNode, prefix: string, show: Repr): (r: Result<seq<Entry>>)
    ensures r.Raised? <==> n.Action? && n.details.Note?
    ensures r.Raised? ==> r.exc == StrHasNoGet
    ensures n.Logic? ==> r == Ok([])
    ensures r.Ok? ==> forall k :: 0 <= k < |r.value| ==> r.value[k].Detail? && r.value[k].prefix == prefix
    ensures r.Ok? && n.Action? ==>
              if Filled(ErrorOf(n.details)) || Filled(ReasonOf(n.details)) then
                |r.value| == 2
                && r.value[0].text == "     '-- Reason: "
                     + (if Filled(ErrorOf(n.details)) then ErrorOf(n.details) else ReasonOf(n.details)).value
                && r.value[1].text == "          '-- Details_Output: " + EvidenceOf(n.details, show)
              else
                r.value == [Detail(prefix, "       '-- Details: " + show.details(n.details))]
  {
    match n
    case Logic(_, _, _) => Ok([])
    case Action(_, _, d) =>
      if d.Note? then Raised(StrHasNoGet)
      else if Filled(ErrorOf(d)) then
        Ok([Detail(prefix, "     '-- Reason: " + ErrorOf(d).value),
            Detail(prefix, "          '-- Details_Output: " + EvidenceOf(d, show))])
      else if Filled(ReasonOf(d)) then
        Ok([Detail(prefix, "     '-- Reason: " + ReasonOf(d).value),
            Detail(prefix, "          '-- Details_Output: " + EvidenceOf(d, show))])
      else
        Ok([Detail(prefix, "       '-- Details: " + show.details(d))])
  }

  /** `head` followed by the entries of `rest`, unless `rest` raised. */
  function Then(head: seq<Entry>, rest: Result<seq<Entry>>): Result<seq<Entry>> {
    match rest
    case Ok(es) => Ok(head + es)
    case Raised(e) => Raised(e)
  }

  lemma ThenThen(a: seq<Entry>, b: seq<Entry>, rest: Result<seq<Entry>>)
    ensures Then(a, Then(b, rest)) == Then(a + b, rest)
  {
    if rest.Ok? {
      assert a + (b + rest.value) == a + b + rest.value;
    }
  }

  lemma ThenEmpty(rest: Result<seq<Entry>>)
    ensures Then([], rest) == rest
  {
    if rest.Ok? {
      assert [] + rest.value == rest.value;
    }
  }

  /** The entries `format_for_file` renders for a node under `prefix`. */
  function TreeEntries(n: ResultNode, prefix: string, isLast: bool, show: Repr): (r: Result<seq<Entry>>)
    ensures r.Ok? ==> |r.value| >= 1 && r.value[0] == Heading(prefix, Connector(isLast), Label(n))
    ensures DetailEntries(n, ChildPrefix(prefix, isLast), show).Raised? ==> r.Raised?
    decreases n, 1, 0
  {
    var cp := ChildPrefix(prefix, isLast);
    match DetailEntries(n, cp, show)
    case Raised(e) => Raised(e)
    case Ok(ds) => Then([Heading(prefix, Connector(isLast), Label(n))] + ds, ChildEntries(n, 0, cp, show))
  }

  /** The entries of the children of `parent` from the `i`-th on, each under
      `prefix` and, only for the final child, as the last sibling. */
  function ChildEntries(parent: ResultNode, i: nat, prefix: string, show: Repr): Result<seq<Entry>>
    decreases parent, 0, if parent.Logic? then |parent.steps| - i else 0
  {
    if !parent.Logic? || i >= |parent.steps| then Ok([])
    else
      match TreeEntries(parent.steps[i], prefix, i == |parent.steps| - 1, show)
      case Raised(e) => Raised(e)
      case Ok(es) => Then(es, ChildEntries(parent, i + 1, prefix, show))
  }

  lemma TreeSplit(n: ResultNode, prefix: string, isLast: bool, show: Repr)
    requires DetailEntries(n, ChildPrefix(prefix, isLast), show).Ok?
    ensures TreeEntries(n, prefix, isLast, show)
         == Then([Heading(prefix, Connector(isLast), Label(n))] + DetailEntries(n, ChildPrefix(prefix, isLast), show).value,
                 ChildEntries(n, 0, ChildPrefix(prefix, isLast), show))
  {
  }

  lemma ChildStep(parent: ResultNode, i: nat, prefix: string, show: Repr, done: seq<Entry>)
    requires i < |Steps(parent)|
    requires TreeEntries(Steps(parent)[i], prefix, i == |Steps(parent)| - 1, show).Ok?
    ensures Then(done, ChildEntries(parent, i, prefix, show))
         == Then(done + TreeEntries(Steps(parent)[i], prefix, i == |Steps(parent)| - 1, show).value,
                 ChildEntries(parent, i + 1, prefix, show))
  {
    var es := TreeEntries(Steps(parent)[i], prefix, i == |Steps(parent)| - 1, show).value;
    assert ChildEntries(parent, i, prefix, show) == Then(es, ChildEntries(parent, i + 1, prefix, show));
    ThenThen(done, es, ChildEntries(parent, i + 1, prefix, show));
  }

  lemma ChildrenEnd(parent: ResultNode, i: nat, prefix: string, show: Repr, done: seq<Entry>)
    requires i >= |Steps(parent)|
    ensures Then(done, ChildEntries(parent, i, prefix, show)) == Ok(done)
  {
    assert done + [] == done;
  }

  /** The text of a rendering, or what it raised. */
  function Rendered(r: Result<seq<Entry>>): Result<string> {
    match r
    case Ok(es) => Ok(Render(es))
    case Raised(e) => Raised(e)
  }

  /** `format_for_file`: the node's heading, its detail lines, then each child
      in turn, as one string. */
  method FormatForFile(n: ResultNode, prefix: string, isLast: bool, show: Repr) returns (r: Result<string>)
    ensures r == Rendered(TreeEntries(n, prefix, isLast, show))
    decreases n, 1
  {
    var cp := ChildPrefix(prefix, isLast);
    var details := DetailEntries(n, cp, show);
    if details.Raised? {
      return Raised(details.exc);
    }
    var head := [Heading(prefix, Connector(isLast), Label(n))] + details.value;
    TreeSplit(n, prefix, isLast, show);
    var children := FormatChildren(n, cp, show);
    if children.Raised? {
      return Raised(children.exc);
    }
    RenderAppend(head, ChildEntries(n, 0, cp, show).value);
    return Ok(Render(head) + children.value);
  }

  /** The loop of `format_for_file` over `steps_results`: each child in
      order, only the final one as the last sibling. */
  method FormatChildren(parent: ResultNode, prefix: string, show: Repr) returns (r: Result<string>)
    ensures r == Rendered(ChildEntries(parent, 0, prefix, show))
    decreases parent, 0
  {
    var steps := Steps(parent);
    var result := "";
    ghost var done: seq<Entry> := [];
    ThenEmpty(ChildEntries(parent, 0, prefix, show));
    var i := 0;
    while i < |steps|
      invariant 0 <= i <= |steps|
      invariant result == Render(done)
      invariant ChildEntries(parent, 0, prefix, show) == Then(done, ChildEntries(parent, i, prefix, show))
    {
      assert steps[i] < parent;
      var sub := FormatForFile(steps[i], prefix, i == |steps| - 1, show);
      ghost var es := TreeEntries(steps[i], prefix, i == |steps| - 1, show);
      if sub.Raised? {
        return Raised(sub.exc);
      }
      ChildStep(parent, i, prefix, show, done);
      RenderAppend(done, es.value);
      result := result + sub.value;
      done := done + es.value;
      i := i + 1;
    }
    ChildrenEnd(parent, i, prefix, show, done);
    return Ok(result);
  }

  /** The nodes of a tree in the order a rendering visits them: the node,
      then the subtree of each child in turn. */
  function Preorder(n: ResultNode): seq<ResultNode>
    decreases n, 1, 0
  {
    [n] + PreorderFrom(n, 0)
  }

  function PreorderFrom(parent: ResultNode, i: nat): seq<ResultNode>
    decreases parent, 0, if parent.Logic? then |parent.steps| - i else 0
  {
    if !parent.Logic? || i >= |parent.steps| then []
    else Preorder(parent.steps[i]) + PreorderFrom(parent, i + 1)
  }

  /** The heading captions of a list of entries, in order. */
  function Captions(es: seq<Entry>): seq<string>
    decreases |es|
  {
    if es == [] then [] else (if es[0].Heading? then [es[0].caption] else []) + Captions(es[1..])
  }

  lemma {:induction false} CaptionsAppend(a: seq<Entry>, b: seq<Entry>)
    ensures Captions(a + b) == Captions(a) + Captions(b)
    decreases |a|
  {
    if a == [] {
      assert a + b == b;
    } else {
      assert (a + b)[0] == a[0] && (a + b)[1..] == a[1..] + b;
      CaptionsAppend(a[1..], b);
    }
  }

  lemma {:induction false} NoCaptions(ds: seq<Entry>)
    requires forall k :: 0 <= k < |ds| ==> ds[k].Detail?
    ensures Captions(ds) == []
    decreases |ds|
  {
    if ds != [] {
      NoCaptions(ds[1..]);
    }
  }

  /** The heading captions of a list of nodes. */
  function Labels(ns: seq<ResultNode>): (ls: seq<string>)
    ensures |ls| == |ns| && forall k :: 0 <= k < |ns| ==> ls[k] == Label(ns[k])
  {
    seq(|ns|, k requires 0 <= k < |ns| => Label(ns[k]))
  }

  lemma LabelsAppend(a: seq<ResultNode>, b: seq<ResultNode>)
    ensures Labels(a + b) == Labels(a) + Labels(b)
  {
  }

  /** Every node of the tree contributes exactly one heading, and the headings
      come in preorder: a node before its children, children in order. */
  lemma {:induction false} OneHeadingPerNode(n: ResultNode, prefix: string, isLast: bool, show: Repr)
    requires TreeEntries(n, prefix, isLast, show).Ok?
    ensures Captions(TreeEntries(n, prefix, isLast, show).value) == Labels(Preorder(n))
    decreases n, 1, 0
  {
    var cp := ChildPrefix(prefix, isLast);
    var ds := DetailEntries(n, cp, show).value;
    var head := [Heading(prefix, Connector(isLast), Label(n))];
    TreeSplit(n, prefix, isLast, show);
    ChildHeadings(n, 0, cp, show);
    NoCaptions(ds);
    CaptionsAppend(head, ds);
    CaptionsAppend(head + ds, ChildEntries(n, 0, cp, show).value);
    LabelsAppend([n], PreorderFrom(n, 0));
  }

  lemma {:induction false} ChildHeadings(parent: ResultNode, i: nat, prefix: string, show: Repr)
    requires ChildEntries(parent, i, prefix, show).Ok?
    ensures Captions(ChildEntries(parent, i, prefix, show).value) == Labels(PreorderFrom(parent, i))
    decreases parent, 0, if parent.Logic? then |parent.steps| - i else 0
  {
    if parent.Logic? && i < |parent.steps| {
      var c := parent.steps[i];
      var last := i == |parent.steps| - 1;
      OneHeadingPerNode(c, prefix, last, show);
      ChildHeadings(parent, i + 1, prefix, show);
      CaptionsAppend(TreeEntries(c, prefix, last, show).value, ChildEntries(parent, i + 1, prefix, show).value);
      LabelsAppend(Preorder(c), PreorderFrom(parent, i + 1));
    }
  }

  /** An action node whose `details` is a bare string. */
  predicate IsNote(n: ResultNode) {
    n.Action? && n.details.Note?
  }

  predicate AnyNote(ns: seq<ResultNode>) {
    exists k :: 0 <= k < |ns| && IsNote(ns[k])
  }

  lemma AnyNoteAppend(a: seq<ResultNode>, b: seq<ResultNode>)
    ensures AnyNote(a + b) <==> AnyNote(a) || AnyNote(b)
  {
    if AnyNote(a) {
      var k :| 0 <= k < |a| && IsNote(a[k]);
      assert (a + b)[k] == a[k];
    }
    if AnyNote(b) {
      var k :| 0 <= k < |b| && IsNote(b[k]);
      assert (a + b)[|a| + k] == b[k];
    }
    if AnyNote(a + b) {
      var k :| 0 <= k < |a + b| && IsNote((a + b)[k]);
      if k < |a| {
        assert (a + b)[k] == a[k];
      } else {
        assert (a + b)[k] == b[k - |a|];
      }
    }
  }

  /** Rendering a tree raises exactly when some node in it has a string
      `details`, and what it raises is the AttributeError of `.get` on a str. */
  lemma {:induction false} RaisesOnStringDetails(n: ResultNode, prefix: string, isLast: bool, show: Repr)
    ensures TreeEntries(n, prefix, isLast, show).Raised? <==> AnyNote(Preorder(n))
    ensures TreeEntries(n, prefix, isLast, show).Raised? ==> TreeEntries(n, prefix, isLast, show).exc == StrHasNoGet
    decreases n, 1, 0
  {
    var cp := ChildPrefix(prefix, isLast);
    AnyNoteAppend([n], PreorderFrom(n, 0));
    assert AnyNote([n]) <==> IsNote(n) by {
      assert [n][0] == n;
    }
    if !IsNote(n) {
      TreeSplit(n, prefix, isLast, show);
      ChildrenRaise(n, 0, cp, show);
    }
  }

  lemma {:induction false} ChildrenRaise(parent: ResultNode, i: nat, prefix: string, show: Repr)
    ensures ChildEntries(parent, i, prefix, show).Raised? <==> AnyNote(PreorderFrom(parent, i))
    ensures ChildEntries(parent, i, prefix, show).Raised? ==> ChildEntries(parent, i, prefix, show).exc == StrHasNoGet
    decreases parent, 0, if parent.Logic? then |parent.steps| - i else 0
  {
    if parent.Logic? && i < |parent.steps| {
      var c := parent.steps[i];
      RaisesOnStringDetails(c, prefix, i == |parent.steps| - 1, show);
      ChildrenRaise(parent, i + 1, prefix, show);
      AnyNoteAppend(Preorder(c), PreorderFrom(parent, i + 1));
    }
  }

  /** Each child rendered on its own: under the given prefix, and as the last
      sibling exactly when it is the final child. */
  function ChildRenderings(parent: ResultNode, prefix: string, show: Repr): (rs: seq<Result<seq<Entry>>>)
    ensures |rs| == |Steps(parent)|
  {
    var steps := Steps(parent);
    seq(|steps|, j requires 0 <= j < |steps| => TreeEntries(steps[j], prefix, j == |steps| - 1, show))
  }

  /** The entries of a list of renderings one after the other, or the first
      exception among them. */
  function Collect(rs: seq<Result<seq<Entry>>>): Result<seq<Entry>>
    decreases |rs|
  {
    if rs == [] then Ok([])
    else match rs[0]
      case Raised(e) => Raised(e)
      case Ok(es) => Then(es, Collect(rs[1..]))
  }

  lemma {:induction false} CollectOk(rs: seq<Result<seq<Entry>>>)
    requires Collect(rs).Ok?
    ensures forall j :: 0 <= j < |rs| ==> rs[j].Ok?
    decreases |rs|
  {
    if rs != [] {
      CollectOk(rs[1..]);
      assert forall j :: 1 <= j < |rs| ==> rs[j] == rs[1..][j - 1];
    }
  }

  /** The children are rendered in order, each as it renders on its own. */
  lemma {:induction false} ChildrenInOrder(parent: ResultNode, i: nat, prefix: string, show: Repr)
    requires i <= |Steps(parent)|
    ensures ChildEntries(parent, i, prefix, show) == Collect(ChildRenderings(parent, prefix, show)[i..])
    decreases |Steps(parent)| - i
  {
    var rs := ChildRenderings(parent, prefix, show);
    if i < |Steps(parent)| {
      ChildrenInOrder(parent, i + 1, prefix, show);
      assert rs[i..][0] == rs[i] && rs[i..][1..] == rs[i + 1..];
    }
  }

  /** A rendering starts with the node's own heading. */
  lemma FirstEntryIsHeading(n: ResultNode, prefix: string, isLast: bool, show: Repr)
    requires TreeEntries(n, prefix, isLast, show).Ok?
    ensures |TreeEntries(n, prefix, isLast, show).value| >= 1
    ensures TreeEntries(n, prefix, isLast, show).value[0] == Heading(prefix, Connector(isLast), Label(n))
  {
    TreeSplit(n, prefix, isLast, show);
  }

  /** In a rendered logic group, every child's heading sits under the
      group's child prefix (four spaces more after a last sibling, "   |" more
      otherwise), with a corner for the final child and a tee for the rest. */
  lemma SiblingConnectors(parent: ResultNode, prefix: string, isLast: bool, show: Repr)
    requires TreeEntries(parent, prefix, isLast, show).Ok?
    ensures forall j :: 0 <= j < |Steps(parent)| ==>
              var r := ChildRenderings(parent, ChildPrefix(prefix, isLast), show)[j];
              r.Ok? && |r.value| >= 1
              && r.value[0] == Heading(prefix + (if isLast then "    " else "   |"),
                                       if j == |Steps(parent)| - 1 then "   '-- " else "   |-- ",
                                       Label(Steps(parent)[j]))
  {
    var cp := ChildPrefix(prefix, isLast);
    var rs := ChildRenderings(parent, cp, show);
    TreeSplit(parent, prefix, isLast, show);
    ChildrenInOrder(parent, 0, cp, show);
    assert rs[0..] == rs;
    CollectOk(rs);
    forall j | 0 <= j < |Steps(parent)|
      ensures rs[j].Ok? && |rs[j].value| >= 1
              && rs[j].value[0] == Heading(cp, Connector(j == |Steps(parent)| - 1), Label(Steps(parent)[j]))
    {
      FirstEntryIsHeading(Steps(parent)[j], cp, j == |Steps(parent)| - 1, show);
    }
  }

  /** `get_task_status`: the `overall_status` of a result dict, otherwise the
      `final_result` itself, which is None before the audit sets one. */
  function TaskStatus(finalResult: Option<ResultNode>): (s: Option<string>)
    ensures s.Some? <==> finalResult.Some?
    ensures s.Some? ==> s.value == StatusName(finalResult.value.status) && s.value in {"PASS", "FAIL", "ERROR"}
  {
    match finalResult
    case Some(node) => Some(StatusName(node.status))
    case None => None
  }

  /** A value that may be None, as an f-string shows it. */
  function Shown(o: Option<string>): string {
    o.GetOr("None")
  }

  /** `"-" * n`. */
  function Dashes(n: nat): (d: string)
    ensures |d| == n && forall k :: 0 <= k < n ==> d[k] == '-'
  {
    if n == 0 then "" else Dashes(n - 1) + "-"
  }

  /** What closes every task record. */
  function Separator(): string {
    "\n" + Dashes(80) + "\n\n"
  }

  /** The metadata lines of a task record. */
  function Metadata(t: TaskDef, status: Option<string>, show: Repr): (m: seq<string>)
    ensures 4 <= |m| <= 6 && m[1] == "Title: " + t.title + "\n"
    ensures forall k :: 0 <= k < |m| ==> |m[k]| > 0 && m[k][|m[k]| - 1] == '\n'
  {
    ["[" + Shown(status) + "] - ID: " + t.id + "\n",
     "Title: " + t.title + "\n",
     "Level: " + t.level + " | Profile: " + show.strings(t.profile) + " | Domain: " + t.domain + "\n",
     "Check Type: " + t.checkType + "\n"]
    + (if t.target != "" then ["Target: " + t.target + "\n"] else [])
    + (if t.expectedValue != "" then ["Expected: " + t.expectedValue + "\n"] else [])
  }

  /** The evidence dict with no keys at all. */
  const NoKeys := EvidenceDict(None, None, None, None, false, PNone, [], [])

  /** `if task.actual_output:`. */
  predicate OutputTruthy(o: Output) {
    match o
    case NoValue => false
    case Text(s) => s != ""
    case Dict(d) => d != NoKeys
  }

  /** The strings written to a report file, in order, and the exception that
      stopped the writing, if any. */
  datatype Written = Written(writes: seq<string>, raised: Option<Exception>)

  /** What `format_task_for_file` writes for a task. */
  function TaskReport(t: TaskDef, actual: Output, finalResult: Option<ResultNode>, show: Repr): (w: Written)
    ensures var m := Metadata(t, TaskStatus(finalResult), show);
            var ev := EvidenceSection(actual, finalResult, show);
            |w.writes| == |m| + 1 + |ev.writes| && w.writes[..|m|] == m
            && w.writes[|m|] == "\nEVIDENCE:\n" && w.writes[|m| + 1..] == ev.writes
            && w.raised == ev.raised
  {
    var ev := EvidenceSection(actual, finalResult, show);
    Written(Metadata(t, TaskStatus(finalResult), show) + ["\nEVIDENCE:\n"] + ev.writes, ev.raised)
  }

  /** The writes after the EVIDENCE header: the rendered tree of a result, or
      the bare result and any raw output when there is none. */
  function EvidenceSection(actual: Output, finalResult: Option<ResultNode>, show: Repr): (w: Written)
    ensures w.raised.Some? ==> finalResult.Some? && w.writes == []
    ensures w.raised.None? ==> |w.writes| >= 2 && w.writes[|w.writes| - 1] == Separator()
    ensures finalResult.None? ==> w.raised.None? && w.writes[0] == "  Result: None\n"
                                  && (|w.writes| == 3 <==> OutputTruthy(actual))
  {
    match finalResult
    case Some(node) =>
      (match Rendered(TreeEntries(node, "", true, show))
       case Raised(e) => Written([], Some(e))
       case Ok(text) => Written([text, Separator()], None))
    case None =>
      Written(["  Result: None\n"]
              + (if OutputTruthy(actual) then ["  Raw Output: " + show.output(actual) + "\n"] else [])
              + [Separator()], None)
  }

  /** The first four metadata lines are always written; a Target line exactly
      when the target is non-empty, and an Expected line exactly when the
      expected value is. */
  lemma OptionalMetadataLines(t: TaskDef, status: Option<string>, show: Repr)
    ensures |Metadata(t, status, show)|
            == 4 + (if t.target != "" then 1 else 0) + (if t.expectedValue != "" then 1 else 0)
    ensures (exists k :: 0 <= k < |Metadata(t, status, show)| && StartsWith(Metadata(t, status, show)[k], "Target: "))
            <==> t.target != ""
    ensures (exists k :: 0 <= k < |Metadata(t, status, show)| && StartsWith(Metadata(t, status, show)[k], "Expected: "))
            <==> t.expectedValue != ""
  {
    var m := Metadata(t, status, show);
    var fixed := m[..4];
    assert fixed[0][0] == '[' && fixed[1][1] == 'i' && fixed[2][0] == 'L' && fixed[3][0] == 'C';
    forall k | 0 <= k < 4
      ensures !StartsWith(m[k], "Target: ") && !StartsWith(m[k], "Expected: ")
    {
      assert m[k] == fixed[k];
      if k == 1 {
        Differs(m[k], "Target: ", 1);
        Differs(m[k], "Expected: ", 0);
      } else {
        Differs(m[k], "Target: ", 0);
        Differs(m[k], "Expected: ", 0);
      }
    }
    if t.target != "" {
      assert m[4][..8] == "Target: ";
      Differs(m[4], "Expected: ", 0);
    }
    if t.expectedValue != "" {
      assert m[|m| - 1][..10] == "Expected: ";
      Differs(m[|m| - 1], "Target: ", 0);
    }
  }

  lemma Differs(s: string, p: string, i: nat)
    requires i < |s| && i < |p| && s[i] != p[i]
    ensures !StartsWith(s, p)
  {
  }

  /** A record that is written out completely ends with a separator of 80
      dashes. Writing stops early only on a result tree with a string
      `details`: the AttributeError then propagates after the metadata and the
      EVIDENCE header have been written. */
  lemma ReportEnding(t: TaskDef, actual: Output, finalResult: Option<ResultNode>, show: Repr)
    ensures TaskReport(t, actual, finalResult, show).raised.Some?
            <==> finalResult.Some? && AnyNote(Preorder(finalResult.value))
    ensures TaskReport(t, actual, finalResult, show).raised.Some? ==>
              TaskReport(t, actual, finalResult, show)
              == Written(Metadata(t, TaskStatus(finalResult), show) + ["\nEVIDENCE:\n"], Some(StrHasNoGet))
    ensures TaskReport(t, actual, finalResult, show).raised.None? ==>
              var ws := TaskReport(t, actual, finalResult, show).writes;
              |ws| >= 1 && ws[|ws| - 1] == "\n" + Dashes(80) + "\n\n"
  {
    if finalResult.Some? {
      RaisesOnStringDetails(finalResult.value, "", true, show);
    }
  }

  /** An open report file, as the strings written to it so far. */
  class ReportFile {
    var writes: seq<string>

    constructor ()
      ensures writes == []
    {
      writes := [];
    }

    method Write(s: string)
      modifies this
      ensures writes == old(writes) + [s]
    {
      writes := writes + [s];
    }
  }

  /** `format_task_for_file`: the task's record, appended to `file`. */
  method FormatTaskForFile(task: AuditTask, file: ReportFile, show: Repr) returns (raised: Option<Exception>)
    modifies file
    ensures var w := TaskReport(task.def, task.actualOutput, task.finalResult, show);
            file.writes == old(file.writes) + w.writes && raised == w.raised
  {
    var status := TaskStatus(task.finalResult);
    ghost var w0 := file.writes;
    WriteMetadata(task.def, status, file, show);
    file.Write("\nEVIDENCE:\n");
    raised := WriteEvidence(task.actualOutput, task.finalResult, file, show);
    ReportParts(w0, Metadata(task.def, status, show),
                EvidenceSection(task.actualOutput, task.finalResult, show).writes, file.writes);
  }

  /** The writes of a task record, in three parts. */
  lemma ReportParts(w0: seq<string>, m: seq<string>, ev: seq<string>, w: seq<string>)
    requires w == w0 + m + ["\nEVIDENCE:\n"] + ev
    ensures w == w0 + (m + ["\nEVIDENCE:\n"] + ev)
  {
  }

  /** The evidence writes of `format_task_for_file`. */
  method WriteEvidence(actual: Output, finalResult: Option<ResultNode>, file: ReportFile, show: Repr)
    returns (raised: Option<Exception>)
    modifies file
    ensures var ev := EvidenceSection(actual, finalResult, show);
            file.writes == old(file.writes) + ev.writes && raised == ev.raised
  {
    if finalResult.Some? {
      var tree := FormatForFile(finalResult.value, "", true, show);
      if tree.Raised? {
        return Some(tree.exc);
      }
      file.Write(tree.value);
    } else {
      file.Write("  Result: None\n");
      if OutputTruthy(actual) {
        file.Write("  Raw Output: " + show.output(actual) + "\n");
      }
    }
    file.Write(Separator());
    return None;
  }

  /** The metadata writes of `format_task_for_file`. */
  method WriteMetadata(t: TaskDef, status: Option<string>, file: ReportFile, show: Repr)
    modifies file
    ensures file.writes == old(file.writes) + Metadata(t, status, show)
  {
    file.Write("[" + Shown(status) + "] - ID: " + t.id + "\n");
    file.Write("Title: " + t.title + "\n");
    file.Write("Level: " + t.level + " | Profile: " + show.strings(t.profile) + " | Domain: " + t.domain + "\n");
    file.Write("Check Type: " + t.checkType + "\n");
    if t.target != "" {
      file.Write("Target: " + t.target + "\n");
    }
    if t.expectedValue != "" {
      file.Write("Expected: " + t.expectedValue + "\n");
    }
  }
}
