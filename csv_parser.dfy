/** The task list loader: one task per CSV data row, the columns a row lacks
    replaced by defaults, and the filter by level, profile, domain and ID.
    The csv module's quoting rules are not modelled: the rows the reader
    yields are the input, and so is `ast.literal_eval`. */
module CsvParser {
  import opened Py
  import opened AuditTasks
  import Remote

  /** The file as the loader sees it: whether it exists, and the rows the
      reader yields from it (or what opening or reading it raised). */
  datatype CsvFile = CsvFile(present: bool, rows: Result<seq<seq<string>>>)

  /** `ast.literal_eval`: the value a parameter text denotes, or what
      evaluating it raised. */
  type LiteralEval = string -> Result<PyValue>

  // ---------------------------------------------------------------------------
  // One row

  /** `dict(zip(header, row))`: the pairs up to the shorter of the two, a
      later key overriding an earlier one. */
  function Zip(keys: seq<string>, values: seq<string>): map<string, string>
    decreases |keys|
  {
    if keys == [] || values == [] then map[]
    else
      var n := Shorter(keys, values);
      Zip(keys[..n - 1], values[..n - 1])[keys[n - 1] := values[n - 1]]
  }

  /** `d.get(key, default)` */
  function Get(d: map<string, string>, key: string, default: string): string {
    if key in d then d[key] else default
  }

  /** The Profile column (default 'All'), split on commas, each piece stripped. */
  function Profiles(d: map<string, string>): (ps: seq<string>)
    ensures |ps| == |Split(Get(d, "Profile", "All"), ",")|
  {
    StripAll(Split(Get(d, "Profile", "All"), ","))
  }

  /** The Parameters column: no text gives an empty dict, a dict or list
      literal gives itself, any other literal an error dict, and text that
      literal_eval rejects with ValueError or SyntaxError an error dict that
      keeps the text. Anything else it raises is raised on. */
  function Params(d: map<string, string>, rowNum: int, literal: LiteralEval): (p: Result<PyValue>)
    ensures p.Ok? ==> p.value.PDict? || p.value.PList?
    ensures p.Raised? ==> var text := Get(d, "Parameters", "");
                          text != "" && literal(text) == p
  {
    var text := Get(d, "Parameters", "");
    if text == "" then Ok(PDict(map[]))
    else match literal(text)
      case Ok(v) =>
        if v.PDict? || v.PList? then Ok(v)
        else Ok(PDict(map["error" := PStr("Parameters on row " + IntToString(rowNum)
                                          + " is not a valid dictionary or list.")]))
      case Raised(e) =>
        if e.kind == ValueError || e.kind == SyntaxError then
          Ok(PDict(map["error" := PStr("Malformed parameters string on row " + IntToString(rowNum)
                                       + ": " + e.message),
                       "orig_value" := PStr(text)]))
        else Raised(e)
  }

  /** The task of one data row, numbered rowNum. */
  function RowTask(header: seq<string>, row: seq<string>, rowNum: int, literal: LiteralEval)
    : (r: Result<TaskDef>)
    ensures r.Raised? <==> Params(Zip(header, row), rowNum, literal).Raised?
    ensures r.Ok? ==> r.value.parameters.PDict? || r.value.parameters.PList?
    ensures r.Ok? ==> |r.value.profile| >= 1
  {
    var d := Zip(header, row);
    match Params(d, rowNum, literal)
    case Raised(e) => Raised(e)
    case Ok(params) =>
      Ok(TaskDef(Get(d, "ID", ""), Get(d, "Level", "N/A"), Profiles(d), Get(d, "Domain", "General"),
                 Get(d, "Title", "No Title"), Get(d, "Check_Type", ""), Get(d, "Target", ""), params,
                 Get(d, "Algorithm", ""), Get(d, "Expected_Value", "")))
  }

  /** How a row and its number become a task. */
  type RowLoader = (seq<string>, int) -> Result<TaskDef>

  /** The loader of parse_csv for a header. */
  function Loader(header: seq<string>, literal: LiteralEval): RowLoader {
    (row, rowNum) => RowTask(header, row, rowNum, literal)
  }

  /** The tasks of the data rows, in order, the first numbered 2; the first
      row whose parameters raise stops the loading. */
  function ParseRows(rows: seq<seq<string>>, load: RowLoader)
    : (r: Result<seq<TaskDef>>)
    ensures r.Ok? ==> |r.value| == |rows|
    decreases |rows|
  {
    if rows == [] then Ok([])
    else
      var n := |rows| - 1;
      match ParseRows(rows[..n], load)
      case Raised(e) => Raised(e)
      case Ok(ds) =>
        match load(rows[n], n + 2)
        case Raised(e) => Raised(e)
        case Ok(d) => Ok(ds + [d])
  }

  /** How an exception inside the reading is reported. */
  function ParseFailure(e: Exception): Exception {
    if e.kind == KeyError then Exception(ValueError, "Missing required column in CSV: " + e.message)
    else Exception(OtherError, "Error parsing CSV file: " + e.message)
  }

  /** parse_csv on the file at path: a missing file raises FileNotFoundError,
      and anything raised while reading, the reader's StopIteration on a file
      without a header row included, is reported by ParseFailure as
      "Error parsing CSV file: " (a missing column as "Missing required
      column in CSV: "). */
  function ParseCsvDefs(path: string, file: CsvFile, literal: LiteralEval): (r: Result<seq<TaskDef>>)
    ensures !file.present ==> r == Raised(Exception(FileNotFoundError, "CSV file not found: " + path))
    ensures file.present && r.Raised? ==> r.exc.kind == ValueError || r.exc.kind == OtherError
    ensures r.Ok? ==> file.present && file.rows.Ok? && |r.value| == |file.rows.value| - 1
  {
    if !file.present then Raised(Exception(FileNotFoundError, "CSV file not found: " + path))
    else match file.rows
      case Raised(e) => Raised(ParseFailure(e))
      case Ok(rows) =>
        if rows == [] then Raised(ParseFailure(Exception(OtherError, "")))
        else match ParseRows(rows[1..], Loader(StripAll(rows[0]), literal))
          case Raised(e) => Raised(ParseFailure(e))
          case Ok(ds) => Ok(ds)
  }

  /** parse_csv: builds one new task per data row. */
  method ParseCsv(path: string, file: CsvFile, literal: LiteralEval) returns (r: Result<seq<AuditTask>>)
    ensures r.Raised? <==> ParseCsvDefs(path, file, literal).Raised?
    ensures r.Raised? ==> r.exc == ParseCsvDefs(path, file, literal).exc
    ensures r.Ok? ==> Defs(r.value) == ParseCsvDefs(path, file, literal).value
    ensures r.Ok? ==> forall i :: 0 <= i < |r.value| ==> fresh(r.value[i]) && r.value[i].Unstarted()
    ensures r.Ok? ==> forall i, j :: 0 <= i < j < |r.value| ==> r.value[i] != r.value[j]
  {
    if !file.present {
      return Raised(Exception(FileNotFoundError, "CSV file not found: " + path));
    }
    if file.rows.Raised? {
      return Raised(ParseFailure(file.rows.exc));
    }
    var rows := file.rows.value;
    if rows == [] {
      return Raised(ParseFailure(Exception(OtherError, "")));
    }
    var loaded := LoadTasks(rows[1..], Loader(StripAll(rows[0]), literal));
    if loaded.Raised? {
      return Raised(ParseFailure(loaded.exc));
    }
    return loaded;
  }

  /** The loop of parse_csv over the data rows: one new task per row,
      appended in order. */
  method LoadTasks(data: seq<seq<string>>, load: RowLoader) returns (r: Result<seq<AuditTask>>)
    ensures r.Raised? <==> ParseRows(data, load).Raised?
    ensures r.Raised? ==> r.exc == ParseRows(data, load).exc
    ensures r.Ok? ==> Defs(r.value) == ParseRows(data, load).value
    ensures r.Ok? ==> forall i :: 0 <= i < |r.value| ==> fresh(r.value[i]) && r.value[i].Unstarted()
    ensures r.Ok? ==> forall i, j :: 0 <= i < j < |r.value| ==> r.value[i] != r.value[j]
  {
    var tasks: seq<AuditTask> := [];
    for i := 0 to |data|
      invariant ParseRows(data[..i], load) == Ok(Defs(tasks))
      invariant forall j :: 0 <= j < |tasks| ==> fresh(tasks[j]) && tasks[j].Unstarted()
      invariant forall j, k :: 0 <= j < k < |tasks| ==> tasks[j] != tasks[k]
    {
      ParseRowsStep(data, i, load);
      var row := load(data[i], i + 2);
      if row.Raised? {
        RaiseSticks(data, i + 1, load);
        return Raised(row.exc);
      }
      var task := new AuditTask(row.value);
      tasks := tasks + [task];
      assert Defs(tasks) == Defs(tasks[..i]) + [row.value];
    }
    assert data[..|data|] == data;
    return Ok(tasks);
  }

  // ---------------------------------------------------------------------------
  // Filtering

  /** The command-line filters; None or an empty text filters nothing. */
  datatype Filters = Filters(level: Option<string>, profile: Option<string>, domain: Option<string>,
                             taskId: Option<string>)

  /** One criterion a task can be selected by. */
  datatype Criterion = LevelIs(level: string) | InProfile(profile: string) | DomainIs(domain: string)
                     | IdIs(id: string)

  predicate Meets(d: TaskDef, c: Criterion) {
    match c
    case LevelIs(l) => d.level == l
    case InProfile(p) => p in d.profile
    case DomainIs(dom) => d.domain == dom
    case IdIs(id) => d.id == id
  }

  /** One list comprehension `[t for t in tasks if ...]`. */
  function Only(tasks: seq<AuditTask>, c: Criterion): (r: seq<AuditTask>)
    ensures |r| <= |tasks|
    ensures forall i :: 0 <= i < |r| ==> r[i] in tasks && Meets(r[i].def, c)
    ensures forall i :: 0 <= i < |tasks| && Meets(tasks[i].def, c) ==> tasks[i] in r
    decreases |tasks|
  {
    if tasks == [] then []
    else (if Meets(tasks[0].def, c) then [tasks[0]] else []) + Only(tasks[1..], c)
  }

  /** `if active: tasks = [t for t in tasks if ...]` */
  function Apply(tasks: seq<AuditTask>, active: bool, c: Criterion): seq<AuditTask> {
    if active then Only(tasks, c) else tasks
  }

  /** filter_csv after parsing: the comprehensions of the active filters,
      one after another. */
  function FilterTasks(tasks: seq<AuditTask>, f: Filters): (r: seq<AuditTask>)
    ensures |r| <= |tasks|
    ensures forall i :: 0 <= i < |r| ==> r[i] in tasks && Wanted(r[i].def, f)
    ensures forall i :: 0 <= i < |tasks| && Wanted(tasks[i].def, f) ==> tasks[i] in r
  {
    var a := Apply(tasks, TextTruthy(f.level), LevelIs(f.level.GetOr("")));
    var b := Apply(a, TextTruthy(f.profile), InProfile(f.profile.GetOr("")));
    var c := Apply(b, TextTruthy(f.domain), DomainIs(f.domain.GetOr("")));
    Apply(c, TextTruthy(f.taskId), IdIs(f.taskId.GetOr("")))
  }

  /** A task is wanted when it matches every active filter. */
  predicate Wanted(d: TaskDef, f: Filters) {
    (TextTruthy(f.level) ==> d.level == f.level.value)
    && (TextTruthy(f.profile) ==> f.profile.value in d.profile)
    && (TextTruthy(f.domain) ==> d.domain == f.domain.value)
    && (TextTruthy(f.taskId) ==> d.id == f.taskId.value)
  }

  /** The wanted tasks in one pass, in their order. */
  function Select(tasks: seq<AuditTask>, f: Filters): seq<AuditTask>
    decreases |tasks|
  {
    if tasks == [] then []
    else (if Wanted(tasks[0].def, f) then [tasks[0]] else []) + Select(tasks[1..], f)
  }

  /** a is b with some elements left out, the rest in their order. */
  predicate IsSubsequence<T(==)>(a: seq<T>, b: seq<T>)
    decreases |b|
  {
    if a == [] then true
    else if b == [] then false
    else (a[0] == b[0] && IsSubsequence(a[1..], b[1..])) || IsSubsequence(a, b[1..])
  }

  /** filter_csv: parses the file and keeps the wanted tasks. */
  method FilterCsv(path: string, file: CsvFile, literal: LiteralEval, f: Filters)
    returns (r: Result<seq<AuditTask>>, ghost all: seq<AuditTask>)
    ensures r.Raised? <==> ParseCsvDefs(path, file, literal).Raised?
    ensures r.Raised? ==> r.exc == ParseCsvDefs(path, file, literal).exc
    ensures r.Ok? ==> Defs(all) == ParseCsvDefs(path, file, literal).value && r.value == FilterTasks(all, f)
    ensures r.Ok? ==> forall i :: 0 <= i < |all| ==> fresh(all[i]) && all[i].Unstarted()
    ensures r.Ok? ==> forall i :: 0 <= i < |r.value| ==> fresh(r.value[i]) && r.value[i].Unstarted()
    ensures r.Ok? ==> forall i, j :: 0 <= i < j < |r.value| ==> r.value[i] != r.value[j]
  {
    var parsed := ParseCsv(path, file, literal);
    if parsed.Raised? {
      return Raised(parsed.exc), [];
    }
    var loaded: seq<AuditTask> := parsed.value;
    all := loaded;
    var tasks := FilterParsed(loaded, f);
    FilterKeepsDistinct(all, f);
    forall i | 0 <= i < |tasks|
      ensures fresh(tasks[i]) && tasks[i].Unstarted()
    {
      var k :| 0 <= k < |all| && all[k] == tasks[i];
    }
    r := Ok(tasks);
  }

  /** The filter steps of filter_csv, each comprehension applied only when
      its filter is given. */
  method FilterParsed(all: seq<AuditTask>, f: Filters) returns (tasks: seq<AuditTask>)
    ensures tasks == FilterTasks(all, f)
  {
    tasks := all;
    if TextTruthy(f.level) {
      tasks := Only(tasks, LevelIs(f.level.value));
    }
    if TextTruthy(f.profile) {
      tasks := Only(tasks, InProfile(f.profile.value));
    }
    if TextTruthy(f.domain) {
      tasks := Only(tasks, DomainIs(f.domain.value));
    }
    if TextTruthy(f.taskId) {
      tasks := Only(tasks, IdIs(f.taskId.value));
    }
  }

  // ---------------------------------------------------------------------------
  // Properties

  /** The comprehensions one after another keep exactly the tasks that match
      every active filter, in their order. */
  lemma {:induction false} FilterIsSelect(tasks: seq<AuditTask>, f: Filters)
    ensures FilterTasks(tasks, f) == Select(tasks, f)
    decreases |tasks|
  {
    if tasks != [] {
      FilterIsSelect(tasks[1..], f);
      var t, rest := tasks[0], tasks[1..];
      var c1, c2 := LevelIs(f.level.GetOr("")), InProfile(f.profile.GetOr(""));
      var c3, c4 := DomainIs(f.domain.GetOr("")), IdIs(f.taskId.GetOr(""));
      var k1 := !TextTruthy(f.level) || Meets(t.def, c1);
      var k2 := k1 && (!TextTruthy(f.profile) || Meets(t.def, c2));
      var k3 := k2 && (!TextTruthy(f.domain) || Meets(t.def, c3));
      var k4 := k3 && (!TextTruthy(f.taskId) || Meets(t.def, c4));
      var a := Apply(rest, TextTruthy(f.level), c1);
      var b := Apply(a, TextTruthy(f.profile), c2);
      var c := Apply(b, TextTruthy(f.domain), c3);
      assert tasks == [t] + rest;
      ApplyStep(t, true, rest, TextTruthy(f.level), c1);
      ApplyStep(t, k1, a, TextTruthy(f.profile), c2);
      ApplyStep(t, k2, b, TextTruthy(f.domain), c3);
      ApplyStep(t, k3, c, TextTruthy(f.taskId), c4);
      assert k4 == Wanted(t.def, f);
    }
  }

  /** One comprehension applied to a list that may start with t. */
  lemma ApplyStep(t: AuditTask, kept: bool, rest: seq<AuditTask>, active: bool, c: Criterion)
    ensures Apply((if kept then [t] else []) + rest, active, c)
            == (if kept && (!active || Meets(t.def, c)) then [t] else []) + Apply(rest, active, c)
  {
    if kept {
      assert ([t] + rest)[1..] == rest;
    } else {
      assert [] + rest == rest;
    }
  }

  /** The one-pass selection keeps a task exactly when the filters want it. */
  lemma {:induction false} SelectMembers(tasks: seq<AuditTask>, f: Filters, t: AuditTask)
    ensures t in Select(tasks, f) <==> t in tasks && Wanted(t.def, f)
    decreases |tasks|
  {
    if tasks != [] {
      SelectMembers(tasks[1..], f, t);
      assert tasks == [tasks[0]] + tasks[1..];
    }
  }

  /** Selecting from distinct tasks gives distinct tasks. */
  lemma {:induction false} SelectDistinct(tasks: seq<AuditTask>, f: Filters)
    requires forall i, j :: 0 <= i < j < |tasks| ==> tasks[i] != tasks[j]
    ensures var s := Select(tasks, f);
            forall i, j :: 0 <= i < j < |s| ==> s[i] != s[j]
    decreases |tasks|
  {
    if tasks != [] {
      var rest := tasks[1..];
      SelectDistinct(rest, f);
      var s := Select(rest, f);
      if Wanted(tasks[0].def, f) {
        forall j | 0 <= j < |s|
          ensures s[j] != tasks[0]
        {
          SelectMembers(rest, f, s[j]);
          var k :| 0 <= k < |rest| && rest[k] == s[j];
          assert rest[k] == tasks[k + 1];
        }
        var all := [tasks[0]] + s;
        forall i, j | 0 <= i < j < |all|
          ensures all[i] != all[j]
        {
          if i > 0 {
            assert all[i] == s[i - 1] && all[j] == s[j - 1];
          } else {
            assert all[j] == s[j - 1];
          }
        }
      } else {
        assert [] + s == s;
      }
    }
  }

  /** The filtered list holds distinct tasks of the list, when the list's
      tasks are distinct. */
  lemma FilterKeepsDistinct(tasks: seq<AuditTask>, f: Filters)
    requires forall i, j :: 0 <= i < j < |tasks| ==> tasks[i] != tasks[j]
    ensures var s := FilterTasks(tasks, f);
            (forall i :: 0 <= i < |s| ==> exists k :: 0 <= k < |tasks| && tasks[k] == s[i])
            && forall i, j :: 0 <= i < j < |s| ==> s[i] != s[j]
  {
    FilterIsSelect(tasks, f);
    SelectDistinct(tasks, f);
    var s := FilterTasks(tasks, f);
    forall i | 0 <= i < |s|
      ensures exists k :: 0 <= k < |tasks| && tasks[k] == s[i]
    {
      SelectMembers(tasks, f, s[i]);
    }
  }

  /** The selection is a subsequence: nothing is reordered or repeated. */
  lemma {:induction false} SelectIsSubsequence(tasks: seq<AuditTask>, f: Filters)
    ensures IsSubsequence(Select(tasks, f), tasks)
    decreases |tasks|
  {
    if tasks != [] {
      SelectIsSubsequence(tasks[1..], f);
      var rest := Select(tasks[1..], f);
      if Wanted(tasks[0].def, f) {
        assert ([tasks[0]] + rest)[1..] == rest;
      } else {
        assert [] + rest == rest;
      }
    }
  }

  /** With no active filter every task is kept. */
  lemma NoFilterKeepsAll(tasks: seq<AuditTask>, f: Filters)
    requires !TextTruthy(f.level) && !TextTruthy(f.profile)
    requires !TextTruthy(f.domain) && !TextTruthy(f.taskId)
    ensures FilterTasks(tasks, f) == tasks
  {
  }

  /** The number of pairs zip forms. */
  function Shorter(keys: seq<string>, values: seq<string>): nat {
    if |keys| <= |values| then |keys| else |values|
  }

  /** A key is in `dict(zip(keys, values))` exactly when it is among the
      keys that get a value. */
  lemma {:induction false} ZipKeys(keys: seq<string>, values: seq<string>, key: string)
    ensures key in Zip(keys, values) <==> key in keys[..Shorter(keys, values)]
    decreases |keys|
  {
    var n := Shorter(keys, values);
    if n > 0 {
      var ks, vs := keys[..n - 1], values[..n - 1];
      ZipKeys(ks, vs, key);
      assert Shorter(ks, vs) == n - 1 && ks[..n - 1] == ks;
      assert keys[..n] == ks + [keys[n - 1]];
    }
  }

  /** A key of `dict(zip(keys, values))` maps to the value paired with its
      last occurrence. */
  lemma {:induction false} ZipLastWins(keys: seq<string>, values: seq<string>, j: nat)
    requires j < Shorter(keys, values) && keys[j] !in keys[j + 1..Shorter(keys, values)]
    ensures keys[j] in Zip(keys, values) && Zip(keys, values)[keys[j]] == values[j]
    decreases |keys|
  {
    var n := Shorter(keys, values);
    if j < n - 1 {
      var ks, vs := keys[..n - 1], values[..n - 1];
      assert keys[n - 1] in keys[j + 1..n];
      assert ks[j + 1..n - 1] == keys[j + 1..n - 1] && Shorter(ks, vs) == n - 1;
      assert keys[j + 1..n] == keys[j + 1..n - 1] + [keys[n - 1]];
      ZipLastWins(ks, vs, j);
    }
  }

  /** A column the header lacks takes its default; a short row leaves the
      columns past its end to their defaults too. */
  lemma MissingColumnDefaults(header: seq<string>, row: seq<string>, rowNum: int, literal: LiteralEval)
    requires "Level" !in header && "Domain" !in header && "Title" !in header && "ID" !in header
    requires "Check_Type" !in header && "Target" !in header && "Parameters" !in header
    requires "Algorithm" !in header && "Expected_Value" !in header
    ensures RowTask(header, row, rowNum, literal).Ok?
    ensures var d := RowTask(header, row, rowNum, literal).value;
            d.level == "N/A" && d.domain == "General" && d.title == "No Title" && d.id == ""
            && d.checkType == "" && d.target == "" && d.parameters == PDict(map[])
            && d.algorithm == "" && d.expectedValue == ""
  {
    forall key | key !in header
      ensures key !in Zip(header, row)
    {
      ZipKeys(header, row, key);
      var n := Shorter(header, row);
      assert header == header[..n] + header[n..];
    }
  }

  /** Without a Profile column a task belongs to profile 'All' alone. */
  lemma DefaultProfile(d: map<string, string>)
    requires "Profile" !in d
    ensures Profiles(d) == ["All"]
  {
    assert !IsSubstring(",", "All") by {
      assert "All"[1..] == "ll" && "ll"[1..] == "l" && "l"[1..] == "";
    }
    SplitNoSep("All", ",");
  }

  /** The profiles are the comma-separated pieces of the column, stripped:
      joining the unstripped pieces with commas gives the column back. */
  lemma ProfilesArePieces(d: map<string, string>)
    ensures var text := Get(d, "Profile", "All");
            var pieces := Split(text, ",");
            Join(pieces, ",") == text
            && forall i :: 0 <= i < |pieces| ==> Profiles(d)[i] == Strip(pieces[i])
  {
    var text := Get(d, "Profile", "All");
    var pieces := Split(text, ",");
    SplitJoin(text, ",");
    var ps := Profiles(d);
    assert ps == seq(|pieces|, i requires 0 <= i < |pieces| => Strip(pieces[i]));
  }

  /** Parameters are always a dict or a list, or the row raises: no text is
      an empty dict, a container literal is itself and any other literal is
      replaced by an error dict. */
  lemma ParamsAreContainers(d: map<string, string>, rowNum: int, literal: LiteralEval)
    ensures var p := Params(d, rowNum, literal);
            p.Ok? ==> p.value.PDict? || p.value.PList?
    ensures Get(d, "Parameters", "") == "" ==> Params(d, rowNum, literal) == Ok(PDict(map[]))
    ensures var text := Get(d, "Parameters", "");
            var p := Params(d, rowNum, literal);
            text != "" && literal(text).Ok? ==>
              p.Ok? && (literal(text).value.PDict? || literal(text).value.PList? ==> p.value == literal(text).value)
              && (!literal(text).value.PDict? && !literal(text).value.PList? ==>
                    p.value.PDict? && p.value.entries.Keys == {"error"})
  {
  }

  /** Text that literal_eval rejects keeps its original text under
      'orig_value'; the row only raises when literal_eval raised something
      other than ValueError and SyntaxError. */
  lemma MalformedParams(d: map<string, string>, rowNum: int, literal: LiteralEval)
    requires "Parameters" in d && d["Parameters"] != "" && literal(d["Parameters"]).Raised?
    ensures var e := literal(d["Parameters"]).exc;
            var p := Params(d, rowNum, literal);
            (p.Raised? <==> e.kind != ValueError && e.kind != SyntaxError)
            && (p.Ok? ==> "error" in p.value.entries && p.value.entries["orig_value"] == PStr(d["Parameters"]))
  {
  }

  /** Data row i (counting from 0 after the header) is the row numbered
      i + 2, and the loader keeps the rows' order. */
  lemma {:induction false} RowsNumberedFromTwo(rows: seq<seq<string>>, load: RowLoader, i: nat)
    requires ParseRows(rows, load).Ok? && i < |rows|
    ensures load(rows[i], i + 2) == Ok(ParseRows(rows, load).value[i])
    decreases |rows|
  {
    var n := |rows| - 1;
    var prefix := ParseRows(rows[..n], load);
    var last := load(rows[n], n + 2);
    var all := ParseRows(rows, load).value;
    assert prefix.Ok? && last.Ok? && all == prefix.value + [last.value];
    if i < n {
      RowsNumberedFromTwo(rows[..n], load, i);
      assert rows[..n][i] == rows[i] && all[i] == prefix.value[i];
    } else {
      assert all[i] == last.value;
    }
  }

  /** Loading one more row after rows that loaded. */
  lemma ParseRowsStep(rows: seq<seq<string>>, i: nat, load: RowLoader)
    requires i < |rows| && ParseRows(rows[..i], load).Ok?
    ensures ParseRows(rows[..i + 1], load)
            == match load(rows[i], i + 2)
               case Raised(e) => Raised(e)
               case Ok(d) => Ok(ParseRows(rows[..i], load).value + [d])
  {
    assert rows[..i + 1][..i] == rows[..i];
  }

  /** Once a prefix of the rows raises, the loading raises with its
      exception. */
  lemma {:induction false} RaiseSticks(rows: seq<seq<string>>, k: nat, load: RowLoader)
    requires k <= |rows| && ParseRows(rows[..k], load).Raised?
    ensures ParseRows(rows, load) == ParseRows(rows[..k], load)
    decreases |rows|
  {
    if k < |rows| {
      var n := |rows| - 1;
      assert rows[..n][..k] == rows[..k];
      RaiseSticks(rows[..n], k, load);
    } else {
      assert rows[..k] == rows;
    }
  }

  /** A row that raises stops the whole loading with that row's exception:
      the first raising row decides. */
  lemma FirstRaisingRowDecides(rows: seq<seq<string>>, load: RowLoader, i: nat)
    requires i < |rows| && load(rows[i], i + 2).Raised?
    requires forall j :: 0 <= j < i ==> load(rows[j], j + 2).Ok?
    ensures ParseRows(rows, load) == Raised(load(rows[i], i + 2).exc)
  {
    AllRowsParse(rows[..i], load);
    ParseRowsStep(rows, i, load);
    RaiseSticks(rows, i + 1, load);
  }

  /** Rows none of which raises all load. */
  lemma {:induction false} AllRowsParse(rows: seq<seq<string>>, load: RowLoader)
    requires forall j :: 0 <= j < |rows| ==> load(rows[j], j + 2).Ok?
    ensures ParseRows(rows, load).Ok?
    decreases |rows|
  {
    if rows != [] {
      var n := |rows| - 1;
      AllRowsParse(rows[..n], load);
    }
  }
}
