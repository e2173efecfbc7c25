/** The project lifecycle labels, text files and the `Project` object of
    util.py, with the dictionary form `to_dict` / `from_dict` exchange. */
module Util {
  import opened Common
  import Model

  /** `ProjectState` (util.py:4-11): seven members, each with its label. */
  datatype ProjectState =
    | GoalSet
    | FileUploaded
    | SchemaReturned
    | SchemaApproved
    | ExampleGenerated
    | Complete
    | Running
  {
    /** The member's value, the string stored by `to_dict`. */
    function Label(): string {
      match this
      case GoalSet => "Goal Set"
      case FileUploaded => "File Uploaded"
      case SchemaReturned => "Schema Returned"
      case SchemaApproved => "Schema Approved"
      case ExampleGenerated => "Example Generated"
      case Complete => "Complete"
      case Running => "Running"
    }
  }

  /** `ProjectState(label)`: the member with that value, or a ValueError. */
  function StateFromLabel(text: string): (r: Result<ProjectState>)
    ensures r.Success? ==> r.value.Label() == text
    ensures r.Failure? ==> r.error == UnknownLabel(text) && forall s: ProjectState :: s.Label() != text
  {
    if text == "Goal Set" then Success(GoalSet)
    else if text == "File Uploaded" then Success(FileUploaded)
    else if text == "Schema Returned" then Success(SchemaReturned)
    else if text == "Schema Approved" then Success(SchemaApproved)
    else if text == "Example Generated" then Success(ExampleGenerated)
    else if text == "Complete" then Success(Complete)
    else if text == "Running" then Success(Running)
    else Failure(UnknownLabel(text))
  }

  /** The labels are pairwise distinct, so looking a state's label up gives
      the state back. */
  lemma LabelRoundTrip(s: ProjectState)
    ensures StateFromLabel(s.Label()) == Success(s)
    ensures forall t: ProjectState :: t.Label() == s.Label() ==> t == s
  {
  }

  /** `TextFile` (util.py:13-16): the name is kept as `file_path`. */
  datatype TextFile = TextFile(filePath: string, contents: string)

  /** The attributes of a `Project` object, as a value. */
  datatype ProjectRecord = ProjectRecord(
    title: string,
    description: string,
    prompt: string,
    files: seq<TextFile>,
    output: seq<string>,
    schema: Option<Model.ResponseSchema>,
    state: ProjectState)

  /** The attributes `Project.__init__` gives a new project. */
  function NewRecord(title: string, description: string, prompt: string): ProjectRecord {
    ProjectRecord(title, description, prompt, [], [], None, GoalSet)
  }

  /** A value in the dictionary of a project: `to_dict` stores the strings, the
      file list, the output list and the schema object as they are. */
  datatype Entry =
    | Text(text: string)
    | FileList(files: seq<TextFile>)
    | Lines(lines: seq<string>)
    | SchemaValue(schema: Option<Model.ResponseSchema>)

  type ProjectDict = map<string, Entry>

  /** `Project.to_dict` (util.py:28-37). */
  function RecordToDict(p: ProjectRecord): ProjectDict {
    map["title" := Text(p.title),
        "description" := Text(p.description),
        "prompt" := Text(p.prompt),
        "files" := FileList(p.files),
        "output" := Lines(p.output),
        "schema" := SchemaValue(p.schema),
        "state" := Text(p.state.Label())]
  }

  const ProjectKeys: set<string> := {"title", "description", "prompt", "files", "output", "schema", "state"}

  /** `to_dict` has exactly the seven keys, stores the state as its label and
      passes files, output and schema through unchanged. */
  lemma RecordToDictShape(p: ProjectRecord)
    ensures RecordToDict(p).Keys == ProjectKeys
    ensures RecordToDict(p)["state"] == Text(p.state.Label())
    ensures RecordToDict(p)["files"] == FileList(p.files)
    ensures RecordToDict(p)["output"] == Lines(p.output)
    ensures RecordToDict(p)["schema"] == SchemaValue(p.schema)
  {
  }

  function TextAt(d: ProjectDict, key: string): Result<string> {
    if key !in d then Failure(KeyMissing(key))
    else match d[key]
      case Text(t) => Success(t)
      case _ => Failure(WrongType(key))
  }

  function FilesAt(d: ProjectDict, key: string): Result<seq<TextFile>> {
    if key !in d then Failure(KeyMissing(key))
    else match d[key]
      case FileList(fs) => Success(fs)
      case _ => Failure(WrongType(key))
  }

  function LinesAt(d: ProjectDict, key: string): Result<seq<string>> {
    if key !in d then Failure(KeyMissing(key))
    else match d[key]
      case Lines(ls) => Success(ls)
      case _ => Failure(WrongType(key))
  }

  function SchemaAt(d: ProjectDict, key: string): Result<Option<Model.ResponseSchema>> {
    if key !in d then Failure(KeyMissing(key))
    else match d[key]
      case SchemaValue(s) => Success(s)
      case _ => Failure(WrongType(key))
  }

  /** `Project.from_dict` (util.py:39-46): the lookups in the order the code
      makes them (a KeyError at the first missing key), then `ProjectState` of
      the stored label. */
  function RecordFromDict(d: ProjectDict): (r: Result<ProjectRecord>)
    ensures r.Success? <==>
      && TextAt(d, "title").Success? && TextAt(d, "description").Success? && TextAt(d, "prompt").Success?
      && FilesAt(d, "files").Success? && LinesAt(d, "output").Success? && SchemaAt(d, "schema").Success?
      && TextAt(d, "state").Success? && StateFromLabel(TextAt(d, "state").value).Success?
    ensures r.Success? ==> forall k :: k in RecordToDict(r.value) ==> k in d && d[k] == RecordToDict(r.value)[k]
    ensures "title" !in d ==> r == Failure(KeyMissing("title"))
  {
    var title :- TextAt(d, "title");
    var description :- TextAt(d, "description");
    var prompt :- TextAt(d, "prompt");
    var files :- FilesAt(d, "files");
    var output :- LinesAt(d, "output");
    var schema :- SchemaAt(d, "schema");
    var text :- TextAt(d, "state");
    var state :- StateFromLabel(text);
    Success(ProjectRecord(title, description, prompt, files, output, schema, state))
  }

  /** `from_dict(to_dict())` restores every attribute. */
  lemma RecordRoundTrip(p: ProjectRecord)
    ensures RecordFromDict(RecordToDict(p)) == Success(p)
  {
    LabelRoundTrip(p.state);
  }

  /** A dictionary whose other six entries are well formed fails exactly when
      the stored state is not one of the seven labels. */
  lemma UnknownStateFails(p: ProjectRecord, text: string)
    ensures RecordFromDict(RecordToDict(p)["state" := Text(text)]).Failure? <==>
      forall s: ProjectState :: s.Label() != text
    ensures (forall s: ProjectState :: s.Label() != text) ==>
      RecordFromDict(RecordToDict(p)["state" := Text(text)]) == Failure(UnknownLabel(text))
  {
    var d := RecordToDict(p)["state" := Text(text)];
    assert TextAt(d, "state") == Success(text);
    if StateFromLabel(text).Success? {
      var s := StateFromLabel(text).value;
      assert s.Label() == text;
    }
  }

  /** A project object (util.py:18-46). Its attributes are assigned in place:
      by `from_dict`, by the creation wizard and by the run loop. */
  class Project {
    var title: string
    var description: string
    var prompt: string
    var files: seq<TextFile>
    var output: seq<string>
    var schema: Option<Model.ResponseSchema>
    var state: ProjectState

    /** `Project.__init__` (util.py:19-26). */
    constructor (title: string, description: string, prompt: string)
      ensures Record() == NewRecord(title, description, prompt)
    {
      this.title := title;
      this.description := description;
      this.prompt := prompt;
      this.files := [];
      this.output := [];
      this.schema := None;
      this.state := GoalSet;
    }

    /** The current attributes. */
    function Record(): ProjectRecord
      reads this
    {
      ProjectRecord(title, description, prompt, files, output, schema, state)
    }

    function ToDict(): ProjectDict
      reads this
    {
      RecordToDict(Record())
    }

    /** `Project.from_dict` (util.py:39-46): a new project from the three
        strings, whose files, output, schema and state are then overwritten. */
    static method FromDict(d: ProjectDict) returns (r: Result<Project>)
      ensures r.Success? <==> RecordFromDict(d).Success?
      ensures r.Success? ==> fresh(r.value) && r.value.Record() == RecordFromDict(d).value
      ensures r.Failure? ==> r.error == RecordFromDict(d).error
    {
      var title :- TextAt(d, "title");
      var description :- TextAt(d, "description");
      var prompt :- TextAt(d, "prompt");
      var project := new Project(title, description, prompt);
      var files :- FilesAt(d, "files");
      project.files := files;
      var output :- LinesAt(d, "output");
      project.output := output;
      var schema :- SchemaAt(d, "schema");
      project.schema := schema;
      var text :- TextAt(d, "state");
      var state :- StateFromLabel(text);
      project.state := state;
      return Success(project);
    }
  }
}
