/** The post-parse part of `TaskLoader.load_tasks` and `validate_task_file`
    (src/services/task_loader.py). Reading the file and parsing its JSON are not modelled:
    the loader starts from the parsed document. */
module TaskLoaders {
  import opened Wrappers
  import opened Text
  import opened Json
  import opened Tasks

  /** The `TaskLoadError`s raised after parsing. */
  datatype LoadError =
    | NotAnArray(typeName: string)
    | EmptyArray
    | InvalidTask(index: nat, cause: TaskError)

  const InvalidTaskLead: string := "Invalid task at index "

  /** `r` is "Invalid task at index <i>: <rest>", with the index read back from its digits. */
  predicate ReportsIndex(r: string, i: nat, rest: string)
  {
    && |InvalidTaskLead| <= |r| && r[..|InvalidTaskLead|] == InvalidTaskLead
    && var t := r[|InvalidTaskLead|..];
       var k := DigitRun(t);
       0 < k && ParseNat(t[..k]) == i && t[k..] == ": " + rest
  }

  /** The text of each error. A rejected record's message gives its index, which reads
      back from the text, followed by the record's own error text. */
  function LoadMessage(e: LoadError): (r: string)
    ensures e.NotAnArray? ==> NamedAfter(r, "Task file must contain a JSON array, got: ", e.typeName)
    ensures e.InvalidTask? ==> ReportsIndex(r, e.index, Message(e.cause))
  {
    match e
    case NotAnArray(n) => Phrase("Task file must contain a JSON array, got: ", n, "")
    case EmptyArray => "Task file contains an empty array - at least one task required"
    case InvalidTask(i, cause) => IndexReport(i, Message(cause))
  }

  /** `f"Invalid task at index {i}: {text}"`. */
  function IndexReport(i: nat, text: string): (r: string)
    ensures ReportsIndex(r, i, text)
  {
    var digits := NatToString(i);
    var rest := ": " + text;
    var r := InvalidTaskLead + digits + rest;
    DigitRunOf(digits, rest);
    ParseNatToString(i);
    assert r[..|InvalidTaskLead|] == InvalidTaskLead;
    assert r[|InvalidTaskLead|..] == digits + rest;
    assert (digits + rest)[..|digits|] == digits && (digits + rest)[|digits|..] == rest;
    r
  }

  /** The outcome of a load: the tasks in document order, or the error. */
  datatype Loaded = Loaded(tasks: seq<TaskRecord>) | LoadFailed(reason: LoadError)

  /** What `from_dict` makes of each record, given its position as id. */
  function Outcomes(items: seq<Json>): (r: seq<Validated>)
    ensures |r| == |items| && forall i :: 0 <= i < |items| ==> r[i] == FromDict(items[i], i)
  {
    seq(|items|, i requires 0 <= i < |items| => FromDict(items[i], i))
  }

  /** The first position at or after `from` holding a rejection. */
  function FirstInvalid(vs: seq<Validated>, from: nat): (r: Option<nat>)
    requires from <= |vs|
    ensures r.Some? ==> from <= r.value < |vs| && vs[r.value].Invalid?
    ensures r.Some? ==> forall j :: from <= j < r.value ==> vs[j].Valid?
    ensures r.None? <==> forall j :: from <= j < |vs| ==> vs[j].Valid?
    decreases |vs| - from
  {
    if from == |vs| then None
    else if vs[from].Invalid? then Some(from)
    else FirstInvalid(vs, from + 1)
  }

  /** The documents `load_tasks` accepts: a non-empty array of records that are all valid
      under their positions. */
  predicate Loadable(data: Json)
  {
    data.JArr? && |data.items| > 0 && FirstInvalid(Outcomes(data.items), 0).None?
  }

  /** `load_tasks` from the array check on: the error it raises, or the tasks in document
      order, each carrying its position as id. */
  method LoadTasks(data: Json) returns (r: Loaded)
    ensures !data.JArr? ==> r == LoadFailed(NotAnArray(TypeName(data)))
    ensures data == JArr([]) ==> r == LoadFailed(EmptyArray)
    ensures r.Loaded? <==> Loadable(data)
    ensures r.Loaded? ==> && |r.tasks| == |data.items|
                          && forall i :: 0 <= i < |r.tasks| ==> FromDict(data.items[i], i) == Valid(r.tasks[i])
    ensures r.Loaded? ==> forall i :: 0 <= i < |r.tasks| ==> r.tasks[i].id == i
    ensures data.JArr? && |data.items| > 0 && FirstInvalid(Outcomes(data.items), 0).Some? ==>
              var i := FirstInvalid(Outcomes(data.items), 0).value;
              r == LoadFailed(InvalidTask(i, FromDict(data.items[i], i).reason))
  {
    if !data.JArr? {
      return LoadFailed(NotAnArray(TypeName(data)));
    }
    if |data.items| == 0 {
      return LoadFailed(EmptyArray);
    }
    r := CollectTasks(data.items);
    forall i | 0 <= i < |data.items| && r.Loaded?
      ensures r.tasks[i].id == i
    {
      assert FromDict(data.items[i], i).Valid?;
    }
  }

  /** The loop of `load_tasks`: validates the records in order and stops at the first
      rejection. */
  method CollectTasks(items: seq<Json>) returns (r: Loaded)
    ensures var vs := Outcomes(items);
            && (r.Loaded? <==> FirstInvalid(vs, 0).None?)
            && (r.Loaded? ==> |r.tasks| == |items| && forall i :: 0 <= i < |items| ==> vs[i] == Valid(r.tasks[i]))
            && (FirstInvalid(vs, 0).Some? ==>
                  r == LoadFailed(InvalidTask(FirstInvalid(vs, 0).value, vs[FirstInvalid(vs, 0).value].reason)))
  {
    ghost var vs := Outcomes(items);
    var tasks: seq<TaskRecord> := [];
    var index := 0;
    while index < |items|
      invariant 0 <= index <= |items| && |tasks| == index
      invariant forall j :: 0 <= j < index ==> vs[j] == Valid(tasks[j])
      invariant FirstInvalid(vs, 0) == FirstInvalid(vs, index)
    {
      var task := FromDict(items[index], index);
      assert task == vs[index];
      if task.Invalid? {
        return LoadFailed(InvalidTask(index, task.reason));
      }
      AcceptedPrefix(vs, tasks, task.task);
      tasks := tasks + [task.task];
      index := index + 1;
    }
    return Loaded(tasks);
  }

  /** Appending the task accepted at the next position keeps `tasks` in step with `vs`. */
  lemma AcceptedPrefix(vs: seq<Validated>, tasks: seq<TaskRecord>, t: TaskRecord)
    requires |tasks| < |vs| && vs[|tasks|] == Valid(t)
    requires forall j :: 0 <= j < |tasks| ==> vs[j] == Valid(tasks[j])
    ensures forall j :: 0 <= j < |tasks| + 1 ==> vs[j] == Valid((tasks + [t])[j])
  {
  }

  /** `validate_task_file`: `parsed` is the document read from the file, or `None` when the
      file is missing, unreadable or not JSON, each of which `load_tasks` reports as an error. */
  method ValidateTaskFile(parsed: Option<Json>) returns (ok: bool)
    ensures ok <==> parsed.Some? && Loadable(parsed.value)
  {
    if parsed.None? {
      return false;
    }
    var r := LoadTasks(parsed.value);
    return r.Loaded?;
  }

  /** A file whose first record is rejected fails on that record, whatever follows it. */
  lemma FirstRecordRejected(items: seq<Json>)
    requires |items| > 0 && FromDict(items[0], 0).Invalid?
    ensures FirstInvalid(Outcomes(items), 0) == Some(0)
  {
  }

  /** The only record of the loader's unknown-type test: type "nope", with a question and
      a `difficulty` key that is never reached. */
  function NopeRecord(): Json
  {
    JObj(map["type" := JStr("nope"), "question" := JStr("x"), "difficulty" := JInt(1)])
  }

  /** "nope" names no task class. */
  lemma NopeRejected()
    ensures FromDict(NopeRecord(), 0) == Invalid(UnknownType("nope"))
  {
    var record := NopeRecord();
    assert Get(record.fields, "type", JNull) == JStr("nope");
    StripStripped("nope");
    assert ParseKind("nope").None?;
  }

  /** The loader's unknown-type test: the load fails at index 0 with a message starting
      "Invalid task at index 0: Unknown task type". */
  method UnknownTypeScenario() returns (r: Loaded)
    ensures r == LoadFailed(InvalidTask(0, UnknownType("nope")))
    ensures ReportsIndex(LoadMessage(r.reason), 0, Message(UnknownType("nope")))
    ensures NamedAfter(Message(r.reason.cause), "Unknown task type: ", "nope")
  {
    NopeRejected();
    FirstRecordRejected([NopeRecord()]);
    r := LoadTasks(JArr([NopeRecord()]));
  }
}
