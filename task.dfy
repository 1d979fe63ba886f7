/** Task record validation: `TaskFactory.from_dict` of src/models/task.py. */
module Tasks {
  import opened Wrappers
  import opened Text
  import opened Json

  datatype TaskKind = Quiz | Tabu | Discussion | Code | ExplainTo

  function KindName(k: TaskKind): string
  {
    match k
    case Quiz => "quiz"
    case Tabu => "tabu"
    case Discussion => "discussion"
    case Code => "code"
    case ExplainTo => "explain_to"
  }

  /** The class registered for a type string, if any; the match is exact (no stripping). */
  function ParseKind(t: string): (r: Option<TaskKind>)
    ensures r.Some? ==> KindName(r.value) == t
    ensures forall k :: KindName(k) == t ==> r == Some(k)
  {
    if t == "quiz" then Some(Quiz)
    else if t == "tabu" then Some(Tabu)
    else if t == "discussion" then Some(Discussion)
    else if t == "code" then Some(Code)
    else if t == "explain_to" then Some(ExplainTo)
    else None
  }

  /** The dataclass fields of each task class besides `type` and `id`. */
  function FieldsOf(k: TaskKind): set<string>
  {
    match k
    case Quiz => {"question", "note"}
    case Tabu => {"topic", "forbidden_words"}
    case Discussion => {"prompt", "spotlight_duration"}
    case Code => {"code", "question", "note"}
    case ExplainTo => {"topic", "audience", "note"}
  }

  /** The keyword arguments the class constructor accepts. */
  function AllowedKeys(k: TaskKind): set<string>
  {
    FieldsOf(k) + {"type", "id"}
  }

  /** One field check: `_require_non_empty_str`, `_require_str_list` or `_optional_str`. */
  datatype Check = RequiredText(field: string) | WordList(field: string) | OptionalText(field: string)

  /** The per-type checks, in the order `from_dict` runs them. */
  function Checks(k: TaskKind): seq<Check>
  {
    match k
    case Quiz => [RequiredText("question"), OptionalText("note")]
    case Tabu => [RequiredText("topic"), WordList("forbidden_words")]
    case Discussion => [RequiredText("prompt"), OptionalText("spotlight_duration")]
    case Code => [RequiredText("code"), RequiredText("question"), OptionalText("note")]
    case ExplainTo => [RequiredText("topic"), RequiredText("audience"), OptionalText("note")]
  }

  /** A string that is not blank after stripping. */
  predicate NonBlankText(v: Json)
  {
    v.JStr? && !IsBlank(v.s)
  }

  /** What each check accepts. */
  predicate Accepts(fields: map<string, Json>, c: Check)
  {
    match c
    case RequiredText(f) => NonBlankText(Get(fields, f, JNull))
    case WordList(f) =>
      var v := Get(fields, f, JNull);
      v.JArr? && |v.items| > 0 && forall i :: 0 <= i < |v.items| ==> NonBlankText(v.items[i])
    case OptionalText(f) => f !in fields || fields[f].JNull? || fields[f].JStr?
  }

  /** The `ValueError`s `from_dict` raises, one constructor per message. */
  datatype TaskError =
    | NotAnObject(typeName: string)
    | BadTypeField
    | UnknownType(t: string)
    | NotText(field: string)
    | NotWordList(field: string)
    | BlankWord(field: string)
    | NotOptionalText(field: string)
    | UnexpectedKey(t: string)

  const ValidTypes: string := "quiz, tabu, discussion, code, explain_to"

  /** What an error is about: the offending value's type, the task type, or the field. */
  function Subject(e: TaskError): string
  {
    match e
    case NotAnObject(n) => n
    case BadTypeField => "type"
    case UnknownType(t) => t
    case NotText(f) => f
    case NotWordList(f) => f
    case BlankWord(f) => f
    case NotOptionalText(f) => f
    case UnexpectedKey(t) => t
  }

  /** The words an error text starts with, before its subject. */
  function Lead(e: TaskError): string
  {
    match e
    case NotAnObject(_) => "Task must be an object, got: "
    case UnknownType(_) => "Unknown task type: "
    case NotOptionalText(_) => "Optional field '"
    case UnexpectedKey(_) => "Invalid data for "
    case _ => "Field '"
  }

  /** `s` appears in `r` right after `prefix`. */
  predicate NamedAfter(r: string, prefix: string, s: string)
  {
    |prefix| + |s| <= |r| && r[..|prefix|] == prefix && r[|prefix|..|prefix| + |s|] == s
  }

  /** The text of each error, which names the offending type or field. For
      `UnexpectedKey`, the `TypeError` text Python itself produces is not modelled and
      stands as a fixed phrase. */
  function Message(e: TaskError): (r: string)
    ensures NamedAfter(r, Lead(e), Subject(e))
  {
    match e
    case NotAnObject(n) => Phrase("Task must be an object, got: ", n, "")
    case BadTypeField => Phrase("Field '", "type", "' must be a non-empty string")
    case UnknownType(t) => Phrase("Unknown task type: ", t, ". Valid types: " + ValidTypes)
    case NotText(f) => Phrase("Field '", f, "' must be a non-empty string")
    case NotWordList(f) => Phrase("Field '", f, "' must be a non-empty array of strings")
    case BlankWord(f) => Phrase("Field '", f, "' must contain only non-empty strings")
    case NotOptionalText(f) => Phrase("Optional field '", f, "' must be a string when provided")
    case UnexpectedKey(t) => Phrase("Invalid data for ", t, " task: unexpected keyword argument")
  }

  /** `prefix + s + suffix`, the shape of every error text. */
  function Phrase(prefix: string, s: string, suffix: string): (r: string)
    ensures NamedAfter(r, prefix, s)
  {
    var r := prefix + s + suffix;
    assert r[..|prefix|] == prefix && r[|prefix|..|prefix| + |s|] == s;
    r
  }

  /** The error a check raises, if any. */
  function RunCheck(fields: map<string, Json>, c: Check): (r: Option<TaskError>)
    ensures r.None? <==> Accepts(fields, c)
    ensures r.Some? ==> (r.value.NotText? || r.value.NotWordList? || r.value.BlankWord? || r.value.NotOptionalText?)
                        && r.value.field == c.field
  {
    match c
    case RequiredText(f) =>
      if NonBlankText(Get(fields, f, JNull)) then None
      else Some(NotText(f))
    case WordList(f) =>
      var v := Get(fields, f, JNull);
      if !v.JArr? || |v.items| == 0 then Some(NotWordList(f))
      else if !(forall i :: 0 <= i < |v.items| ==> NonBlankText(v.items[i])) then
        Some(BlankWord(f))
      else None
    case OptionalText(f) =>
      if f in fields && !fields[f].JNull? && !fields[f].JStr? then
        Some(NotOptionalText(f))
      else None
  }

  /** The first failing check's error, or `None` when every check accepts. */
  function RunChecks(fields: map<string, Json>, cs: seq<Check>): (r: Option<TaskError>)
    ensures r.None? <==> forall i :: 0 <= i < |cs| ==> Accepts(fields, cs[i])
    ensures r.Some? ==> exists i :: && 0 <= i < |cs| && RunCheck(fields, cs[i]) == r
                                    && forall j :: 0 <= j < i ==> Accepts(fields, cs[j])
  {
    if cs == [] then None
    else
      match RunCheck(fields, cs[0])
      case Some(e) => Some(e)
      case None =>
        var rest := RunChecks(fields, cs[1..]);
        assert forall i :: 1 <= i < |cs| ==> cs[i] == cs[1..][i - 1];
        if rest.Some? then
          var i :| && 0 <= i < |cs[1..]| && RunCheck(fields, cs[1..][i]) == rest
                   && forall j :: 0 <= j < i ==> Accepts(fields, cs[1..][j]);
          assert forall j :: 0 <= j < i + 1 ==> Accepts(fields, cs[j]);
          rest
        else rest
  }

  /** A validated task: its class, the id it was given, and its other fields as supplied. */
  datatype TaskRecord = TaskRecord(kind: TaskKind, id: int, fields: map<string, Json>)

  /** The outcome of `from_dict`: the task, or the error it raises. */
  datatype Validated = Valid(task: TaskRecord) | Invalid(reason: TaskError)

  /** The class a record's `type` field selects, when it is an object whose type is a
      non-blank string naming a registered class. */
  function DeclaredKind(data: Json): Option<TaskKind>
  {
    if data.JObj? && NonBlankText(Get(data.fields, "type", JNull)) then ParseKind(data.fields["type"].s)
    else None
  }

  /** `TaskFactory.from_dict(data, task_id)`: the `ValueError` it raises, or the task. */
  function FromDict(data: Json, taskId: int): (r: Validated)
    ensures !data.JObj? ==> r == Invalid(NotAnObject(TypeName(data)))
    ensures data.JObj? && !NonBlankText(Get(data.fields, "type", JNull)) ==> r == Invalid(BadTypeField)
    ensures data.JObj? && NonBlankText(Get(data.fields, "type", JNull)) && ParseKind(data.fields["type"].s).None?
            ==> r == Invalid(UnknownType(data.fields["type"].s))
    ensures DeclaredKind(data).Some? && RunChecks(data.fields, Checks(DeclaredKind(data).value)).Some?
            ==> r == Invalid(RunChecks(data.fields, Checks(DeclaredKind(data).value)).value)
    ensures DeclaredKind(data).Some? && RunChecks(data.fields, Checks(DeclaredKind(data).value)).None?
            && !(data.fields.Keys <= AllowedKeys(DeclaredKind(data).value))
            ==> r == Invalid(UnexpectedKey(KindName(DeclaredKind(data).value)))
    ensures r.Valid? <==> (&& DeclaredKind(data).Some?
                           && RunChecks(data.fields, Checks(DeclaredKind(data).value)).None?
                           && data.fields.Keys <= AllowedKeys(DeclaredKind(data).value))
    ensures r.Valid? ==> && r.task.id == taskId
                         && data.fields["type"] == JStr(KindName(r.task.kind))
                         && r.task.fields == data.fields - {"type", "id"}
  {
    if !data.JObj? then Invalid(NotAnObject(TypeName(data)))
    else
      var t := Get(data.fields, "type", JNull);
      if !NonBlankText(t) then Invalid(BadTypeField)
      else
        match ParseKind(t.s)
        case None => Invalid(UnknownType(t.s))
        case Some(kind) =>
          match RunChecks(data.fields, Checks(kind))
          case Some(e) => Invalid(e)
          case None =>
            if data.fields.Keys <= AllowedKeys(kind) then Valid(TaskRecord(kind, taskId, data.fields - {"type", "id"}))
            else Invalid(UnexpectedKey(t.s))
  }

  /** An accepted task meets every required-field rule of its type: the required text
      fields are non-blank strings, `forbidden_words` is a non-empty list of non-blank
      strings, and each optional field is absent, null or a string. */
  lemma AcceptedFieldsValid(data: Json, taskId: int, c: Check)
    requires FromDict(data, taskId).Valid?
    requires c in Checks(FromDict(data, taskId).task.kind)
    ensures Accepts(data.fields, c)
  {
    var cs := Checks(FromDict(data, taskId).task.kind);
    var i :| 0 <= i < |cs| && cs[i] == c;
  }

  /** A `type` field naming a registered class passes the type checks and selects that class. */
  lemma TypeSelectsKind(fields: map<string, Json>, k: TaskKind)
    requires Get(fields, "type", JNull) == JStr(KindName(k))
    ensures NonBlankText(Get(fields, "type", JNull)) && ParseKind(KindName(k)) == Some(k)
  {
    var n := KindName(k);
    assert n[0] in "qtdce" && !IsSpace(n[0]);
    assert !IsBlank(n);
  }

  /** A field holding a string that starts with a non-space character passes its required-text check. */
  lemma TextFieldAccepted(fields: map<string, Json>, f: string)
    requires f in fields && fields[f].JStr? && |fields[f].s| > 0 && !IsSpace(fields[f].s[0])
    ensures Accepts(fields, RequiredText(f))
  {
  }

  /** No task class declares a `difficulty` field. */
  lemma NoDifficultyField(k: TaskKind)
    ensures "difficulty" !in AllowedKeys(k)
  {
  }

  /** The converse of `AcceptedFieldsValid`: a record whose type names a class, which passes
      every check of that class and carries only keys the class declares, is accepted. */
  lemma {:induction false} AcceptedWhenValid(data: Json, taskId: int, k: TaskKind)
    requires data.JObj? && Get(data.fields, "type", JNull) == JStr(KindName(k))
    requires forall c :: c in Checks(k) ==> Accepts(data.fields, c)
    requires data.fields.Keys <= AllowedKeys(k)
    ensures FromDict(data, taskId) == Valid(TaskRecord(k, taskId, data.fields - {"type", "id"}))
  {
    TypeSelectsKind(data.fields, k);
  }

  /** A record that would otherwise be accepted but carries a key its class does not declare
      fails in the constructor call. */
  lemma {:induction false} UndeclaredKeyRejected(data: Json, taskId: int, k: TaskKind, key: string)
    requires data.JObj? && Get(data.fields, "type", JNull) == JStr(KindName(k))
    requires forall c :: c in Checks(k) ==> Accepts(data.fields, c)
    requires key in data.fields && key !in AllowedKeys(k)
    ensures FromDict(data, taskId) == Invalid(UnexpectedKey(KindName(k)))
  {
    TypeSelectsKind(data.fields, k);
  }

  /** The quiz record of the loader's happy-path test, which carries a `difficulty` key:
      no task class declares that field, so the constructor call rejects it. */
  lemma DifficultyKeyRejected()
    ensures var data := JObj(map["type" := JStr("quiz"), "question" := JStr("What is Big-O?"), "difficulty" := JInt(3)]);
            FromDict(data, 0) == Invalid(UnexpectedKey("quiz"))
  {
    var fields := map["type" := JStr("quiz"), "question" := JStr("What is Big-O?"), "difficulty" := JInt(3)];
    TextFieldAccepted(fields, "question");
    assert Accepts(fields, OptionalText("note"));
    NoDifficultyField(Quiz);
    UndeclaredKeyRejected(JObj(fields), 0, Quiz, "difficulty");
  }

  /** A quiz with a question and a null note is accepted under the id it is given, even
      when the input names another id. */
  lemma QuizAccepted()
    ensures var data := JObj(map["type" := JStr("quiz"), "question" := JStr("Q"), "note" := JNull, "id" := JInt(9)]);
            FromDict(data, 4) == Valid(TaskRecord(Quiz, 4, map["question" := JStr("Q"), "note" := JNull]))
  {
    var fields := map["type" := JStr("quiz"), "question" := JStr("Q"), "note" := JNull, "id" := JInt(9)];
    TextFieldAccepted(fields, "question");
    assert Accepts(fields, OptionalText("note"));
    assert fields.Keys <= AllowedKeys(Quiz);
    AcceptedWhenValid(JObj(fields), 4, Quiz);
    assert fields - {"type", "id"} == map["question" := JStr("Q"), "note" := JNull];
  }

  /** A tabu task whose `forbidden_words` is a string, as in the loader's test. */
  lemma WordListMustBeArray()
    ensures var data := JObj(map["type" := JStr("tabu"), "topic" := JStr("X"), "forbidden_words" := JStr("SQL")]);
            FromDict(data, 0) == Invalid(NotWordList("forbidden_words"))
  {
    var fields := map["type" := JStr("tabu"), "topic" := JStr("X"), "forbidden_words" := JStr("SQL")];
    TypeSelectsKind(fields, Tabu);
    TextFieldAccepted(fields, "topic");
    assert Get(fields, "forbidden_words", JNull) == JStr("SQL");
    assert RunChecks(fields, Checks(Tabu)) == Some(NotWordList("forbidden_words"));
  }
}
