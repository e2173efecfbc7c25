/** The two pieces of logic in main.py: the batch run of a project over its
    files, and the session step that admits a project the wizard created. */
module App {
  import opened Common
  import opened Util
  import opened Model
  import opened CreateProject

  /** What a batch run leaves behind: the records of each file that
      succeeded, in file order, and the error that stopped the run, if any. */
  datatype RunReport = RunReport(responses: seq<seq<ResponseSchemaResults>>, failure: Option<Error>)

  /** The run over `files[i..]`: each file is handed to `run_schema` in turn
      (the `k`-th call answered by `service(k)`), and the first failure ends
      it. */
  function RunFrom<S>(prompt: string, files: seq<TextFile>, schema: Option<ResponseSchema>,
                      service: nat -> Request -> Completion<S>, str: S -> string, i: nat): RunReport
    requires i <= |files|
    decreases |files| - i
  {
    if i == |files| then RunReport([], None)
    else match RunSchema(prompt, files[i].contents, schema, service(i), str)
      case Failure(e) => RunReport([], Some(e))
      case Success(records) =>
        var rest := RunFrom(prompt, files, schema, service, str, i + 1);
        RunReport([records] + rest.responses, rest.failure)
  }

  /** The report of the whole run. */
  function Report<S>(prompt: string, files: seq<TextFile>, schema: Option<ResponseSchema>,
                     service: nat -> Request -> Completion<S>, str: S -> string): RunReport
  {
    RunFrom(prompt, files, schema, service, str, 0)
  }

  /** Fail-fast, from file `i` on: the responses are the records of a prefix
      of the files that all succeeded; without a failure that prefix is every
      file, and a failure is the error of the file right after it. */
  lemma {:induction false} RunFromFailFast<S>(prompt: string, files: seq<TextFile>, schema: Option<ResponseSchema>,
                                            service: nat -> Request -> Completion<S>, str: S -> string, i: nat)
    requires i <= |files|
    ensures var r := RunFrom(prompt, files, schema, service, str, i);
      && i + |r.responses| <= |files|
      && (forall k :: 0 <= k < |r.responses| ==>
            RunSchema(prompt, files[i + k].contents, schema, service(i + k), str) == Success(r.responses[k]))
      && (r.failure.None? <==> i + |r.responses| == |files|)
      && (r.failure.Some? ==>
            RunSchema(prompt, files[i + |r.responses|].contents, schema, service(i + |r.responses|), str)
              == Failure(r.failure.value))
    decreases |files| - i
  {
    if i < |files| && RunSchema(prompt, files[i].contents, schema, service(i), str).Success? {
      RunFromFailFast(prompt, files, schema, service, str, i + 1);
      var rest := RunFrom(prompt, files, schema, service, str, i + 1);
      var r := RunFrom(prompt, files, schema, service, str, i);
      assert r.responses == [RunSchema(prompt, files[i].contents, schema, service(i), str).value] + rest.responses;
      forall k | 0 <= k < |r.responses|
        ensures RunSchema(prompt, files[i + k].contents, schema, service(i + k), str) == Success(r.responses[k])
      {
        if k > 0 {
          assert r.responses[k] == rest.responses[k - 1];
          assert i + k == (i + 1) + (k - 1);
        }
      }
    }
  }

  /** The whole run is fail-fast: `responses` is exactly the successful prefix
      of the files, every file succeeded exactly when there is no failure, and
      the failure is that of the first file that did not succeed. */
  lemma ReportFailFast<S>(prompt: string, files: seq<TextFile>, schema: Option<ResponseSchema>,
                          service: nat -> Request -> Completion<S>, str: S -> string)
    ensures var r := Report(prompt, files, schema, service, str);
      && |r.responses| <= |files|
      && (forall k :: 0 <= k < |r.responses| ==>
            RunSchema(prompt, files[k].contents, schema, service(k), str) == Success(r.responses[k]))
      && (r.failure.None? <==> |r.responses| == |files|)
      && (r.failure.Some? ==>
            RunSchema(prompt, files[|r.responses|].contents, schema, service(|r.responses|), str)
              == Failure(r.failure.value))
  {
    RunFromFailFast(prompt, files, schema, service, str, 0);
  }

  /** The converse direction: when files `i` to `n - 1` succeed and file `n`
      fails, the run from `i` reports exactly `n - i` responses and the error
      of file `n`; nothing after file `n` is looked at. */
  lemma {:induction false} RunFromStopsAtFirstFailure<S>(prompt: string, files: seq<TextFile>, schema: Option<ResponseSchema>,
                                                       service: nat -> Request -> Completion<S>, str: S -> string,
                                                       i: nat, n: nat)
    requires i <= n < |files|
    requires forall k :: i <= k < n ==> RunSchema(prompt, files[k].contents, schema, service(k), str).Success?
    requires RunSchema(prompt, files[n].contents, schema, service(n), str).Failure?
    ensures |RunFrom(prompt, files, schema, service, str, i).responses| == n - i
    ensures RunFrom(prompt, files, schema, service, str, i).failure
      == Some(RunSchema(prompt, files[n].contents, schema, service(n), str).error)
    decreases n - i
  {
    if i < n {
      RunFromStopsAtFirstFailure(prompt, files, schema, service, str, i + 1, n);
    }
  }

  /** When every file succeeds, the run reports one response per file and no
      failure. */
  lemma AllSucceed<S>(prompt: string, files: seq<TextFile>, schema: Option<ResponseSchema>,
                      service: nat -> Request -> Completion<S>, str: S -> string)
    requires forall k :: 0 <= k < |files| ==> RunSchema(prompt, files[k].contents, schema, service(k), str).Success?
    ensures Report(prompt, files, schema, service, str).failure == None
    ensures |Report(prompt, files, schema, service, str).responses| == |files|
  {
    ReportFailFast(prompt, files, schema, service, str);
  }

  /** An empty file list reports nothing and no failure; a project without a
      schema fails at its first file with no responses. */
  lemma ReportEdges<S>(prompt: string, files: seq<TextFile>, service: nat -> Request -> Completion<S>, str: S -> string)
    ensures Report(prompt, [], None, service, str) == RunReport([], None)
    ensures |files| > 0 ==> Report(prompt, files, None, service, str) == RunReport([], Some(AttributeMissing("data_fields")))
  {
  }

  /** Every record of a successful file has the schema's fields, in order. */
  lemma ReportRecordsFollowSchema<S>(prompt: string, files: seq<TextFile>, schema: Option<ResponseSchema>,
                                     service: nat -> Request -> Completion<S>, str: S -> string, k: nat, j: nat)
    requires k < |Report(prompt, files, schema, service, str).responses|
    requires j < |Report(prompt, files, schema, service, str).responses[k]|
    ensures schema.Some?
    ensures Definitions(Report(prompt, files, schema, service, str).responses[k][j].dataFields) == schema.value.dataFields
    ensures Report(prompt, files, schema, service, str).responses[k][j].confirmationMessage == schema.value.confirmationMessage
  {
    ReportFailFast(prompt, files, schema, service, str);
    var r := Report(prompt, files, schema, service, str);
    assert RunSchema(prompt, files[k].contents, schema, service(k), str) == Success(r.responses[k]);
    var c := service(k)(RequestFor(prompt, files[k].contents, schema.value));
    assert r.responses[k][j] == DecodeItem(schema.value, c.items[j], str);
    DecodedDefinitions(schema.value, c.items[j], str);
  }

  /** `run_project` (main.py:82-97): the project is set to RUNNING first, then
      its files are handed to `run_schema` in order; the first error ends the
      run. `attempted` counts the calls made. Only the state changes. */
  method RunProject<S>(project: Project, service: nat -> Request -> Completion<S>, str: S -> string)
    returns (responses: seq<seq<ResponseSchemaResults>>, failure: Option<Error>, ghost attempted: nat)
    modifies project
    ensures project.Record() == old(project.Record()).(state := Running)
    ensures RunReport(responses, failure) == Report(project.prompt, project.files, project.schema, service, str)
    ensures attempted == |responses| + (if failure.Some? then 1 else 0)
  {
    project.state := Running;
    responses := [];
    failure := None;
    attempted := 0;
    var i := 0;
    while i < |project.files|
      invariant 0 <= i <= |project.files|
      invariant project.Record() == old(project.Record()).(state := Running)
      invariant |responses| == i && attempted == i
      invariant Report(project.prompt, project.files, project.schema, service, str)
        == RunReport(responses + RunFrom(project.prompt, project.files, project.schema, service, str, i).responses,
                     RunFrom(project.prompt, project.files, project.schema, service, str, i).failure)
    {
      attempted := attempted + 1;
      var outcome := RunSchema(project.prompt, project.files[i].contents, project.schema, service(i), str);
      match outcome
      case Failure(e) =>
        failure := Some(e);
        assert responses + [] == responses;
        return;
      case Success(records) =>
        var rest := RunFrom(project.prompt, project.files, project.schema, service, str, i + 1);
        assert responses + ([records] + rest.responses) == (responses + [records]) + rest.responses;
        responses := responses + [records];
      i := i + 1;
    }
    assert responses + [] == responses;
  }

  /** `run_project` as written (main.py:82-97): after a loop that met no
      failure and collected at least one response, line 94 reads
      `data_fields` of a response, which is a list of records, and raises.
      `raised` is the error that escapes the call. */
  method RunProjectAsWritten<S>(project: Project, service: nat -> Request -> Completion<S>, str: S -> string)
    returns (raised: Option<Error>)
    modifies project
    ensures project.Record() == old(project.Record()).(state := Running)
    ensures var report := Report(project.prompt, project.files, project.schema, service, str);
      raised.Some? <==> report.failure.None? && |report.responses| > 0
    ensures raised.Some? ==> raised.value == AttributeMissing("data_fields")
  {
    var responses, failure, attempted := RunProject(project, service, str);
    if failure.None? && |responses| > 0 {
      return Some(AttributeMissing("data_fields"));
    }
    return None;
  }

  /** The part of `st.session_state` that main.py owns, and the projects
      collection it appends to (`ProjectsManager` is not part of this model;
      it is a sequence here). */
  class Session {
    var projects: seq<Project>
    var activeProject: Project?
    var creatingProject: bool
    const wizard: Wizard

    /** `initialize_session_state` (main.py:13-17) over a stored collection. */
    constructor (stored: seq<Project>)
      ensures projects == stored && activeProject == null && !creatingProject
      ensures fresh(wizard) && wizard.View() == WizardView(GoalSet, null, None, None, None, None, false)
      ensures wizard.Valid()
    {
      projects := stored;
      activeProject := null;
      creatingProject := false;
      wizard := new Wizard();
    }

    /** The "Create New Project" button (main.py:118-122): start creating,
        deselect, drop the draft; the wizard's step is left as it was. */
    method NewProjectButton()
      modifies this, wizard
      ensures creatingProject && activeProject == null && projects == old(projects)
      ensures wizard.View() == old(wizard.View()).(tempProject := null)
      ensures old(wizard.Valid()) ==> wizard.Valid()
    {
      creatingProject := true;
      activeProject := null;
      wizard.DropDraft();
    }

    /** The gate (main.py:124-132): while creating, run the wizard once; a
        returned project joins the collection, becomes active and ends the
        creation only when it is in state COMPLETE. `ran` is the wizard's
        outcome, None when not creating. */
    method CreatePanel<S>(input: Interaction<S>, str: S -> string) returns (ran: Option<Outcome>)
      modifies this, wizard, wizard.tempProject
      ensures !old(creatingProject) ==>
        ran == None && projects == old(projects) && activeProject == old(activeProject)
        && !creatingProject && wizard.View() == old(wizard.View())
        && (wizard.tempProject != null ==> wizard.tempProject.Record() == old(wizard.tempProject.Record()))
      ensures old(creatingProject) ==>
        ran.Some?
        && var r := ran.value;
           var admitted := r.Returned? && r.project != null && r.project.state == Complete;
           if admitted then
             projects == old(projects) + [r.project] && activeProject == r.project
             && !creatingProject && wizard.tempProject == null
           else
             projects == old(projects) && activeProject == old(activeProject) && creatingProject
      ensures old(creatingProject) ==>
        (old(wizard.Valid())
         || !(ran.value.Returned? && ran.value.project != null && ran.value.project.state == Complete)) ==>
        wizard.Dispatched(input, str, old(wizard.tempProject), ran.value)
      ensures (old(creatingProject) && old(wizard.step) == Complete && input.button == SaveButton) ==>
        ran.value.Returned? && ran.value.project != null && ran.value.project.state == Complete
        && projects == old(projects) + [ran.value.project] && activeProject == ran.value.project
        && !creatingProject
      ensures old(wizard.Valid()) ==> wizard.Valid()
      ensures (old(wizard.Valid()) && ran.Some? && ran.value.Returned? && ran.value.project != null
               && ran.value.project.state == Complete) ==>
        fresh(ran.value.project) && ran.value.project.files == [] && ran.value.project.schema == None
    {
      if !creatingProject {
        return None;
      }
      var r := wizard.Workflow(input, str);
      ran := Some(r);
      if r.Returned? && r.project != null && r.project.state == Complete {
        projects := projects + [r.project];
        activeProject := r.project;
        creatingProject := false;
        wizard.DropDraft();
      }
    }
  }
}
