/** The project-creation wizard of create_project.py. Streamlit runs the
    script once per interaction; each method below is one such run of one
    step: widget values, the pressed button and the answers of the language
    model arrive as parameters, and `st.rerun()` ends the run. */
module CreateProject {
  import opened Common
  import opened Util
  import opened Model

  /** The title, description and prompt `project_setup` proposes (model.py:13-16),
      and the values of the three text widgets that show them. */
  datatype ProjectSetup = ProjectSetup(title: string, description: string, prompt: string)

  /** The button pressed in a run; Streamlit reports at most one per run. */
  datatype Button = NoButton | NextButton | BackButton | ApproveButton | CompleteButton | SaveButton

  /** What one run of the wizard receives from outside. */
  datatype Interaction<S> = Interaction(
    chat: Option<string>,                                // `st.chat_input`
    setup: string -> Result<ProjectSetup>,               // `LLMHelper().project_setup(goal)`
    fields: ProjectSetup,                                // the three text widgets of the goal step
    upload: Option<Upload>,                              // `st.file_uploader`
    propose: (string, string) -> Result<ResponseSchema>, // `LLMHelper().extract_schema(contents, prompt)`
    extract: Request -> Completion<S>,                   // the completion service behind `run_schema`
    fallback: ProjectSetup,                              // the `new_project_*` session keys
    button: Button)

  /** A file held by the uploader: its name, and its contents decoded as
      UTF-8 (None when the bytes are not valid UTF-8). */
  datatype Upload = Upload(name: string, text: Option<string>)

  /** How a run ends: the step function returned, `st.rerun()` stopped it, or
      an exception escaped. */
  datatype Outcome = Returned(project: Project?) | Rerun | Raised(error: Error)

  /** The five step names the wizard ever stores. */
  predicate IsWizardStep(s: ProjectState) {
    !s.ExampleGenerated? && !s.Running?
  }

  /** The step after a run in which `b` was pressed and its handler reached
      (create_project.py:61-66, 80-86, 106-114, 135-142, 159-166). */
  function NextStep(s: ProjectState, b: Button): ProjectState {
    match (s, b)
    case (GoalSet, NextButton) => FileUploaded
    case (FileUploaded, BackButton) => GoalSet
    case (FileUploaded, NextButton) => SchemaReturned
    case (SchemaReturned, BackButton) => FileUploaded
    case (SchemaReturned, ApproveButton) => SchemaApproved
    case (SchemaApproved, BackButton) => SchemaReturned
    case (SchemaApproved, CompleteButton) => Complete
    case (Complete, SaveButton) => GoalSet
    case _ => s
  }

  /** The step after a series of runs; a run that ends before its buttons is
      a run with `NoButton`. */
  function Walk(s: ProjectState, presses: seq<Button>): ProjectState
    decreases |presses|
  {
    if |presses| == 0 then s else Walk(NextStep(s, presses[0]), presses[1..])
  }

  /** From a wizard step every series of runs stays among the five wizard
      steps: EXAMPLE_GENERATED and RUNNING are never entered. */
  lemma {:induction false} WalkStaysInWizard(s: ProjectState, presses: seq<Button>)
    requires IsWizardStep(s)
    ensures IsWizardStep(Walk(s, presses))
    decreases |presses|
  {
    if |presses| > 0 {
      WalkStaysInWizard(NextStep(s, presses[0]), presses[1..]);
    }
  }

  /** The only way out of GOAL_SET is Next, to FILE_UPLOADED; the only way out
      of COMPLETE is Save, back to GOAL_SET. */
  lemma OnlyExits(b: Button)
    ensures NextStep(GoalSet, b) != GoalSet <==> b == NextButton
    ensures NextStep(GoalSet, b) in {GoalSet, FileUploaded}
    ensures NextStep(Complete, b) != Complete <==> b == SaveButton
    ensures NextStep(Complete, b) in {Complete, GoalSet}
  {
  }

  /** The button that moves a step forward. */
  function Forward(s: ProjectState): Button {
    match s
    case GoalSet => NextButton
    case FileUploaded => NextButton
    case SchemaReturned => ApproveButton
    case SchemaApproved => CompleteButton
    case _ => SaveButton
  }

  /** Back undoes the forward edge out of GOAL_SET, FILE_UPLOADED and
      SCHEMA_RETURNED; COMPLETE has no Back. */
  lemma BackUndoesForward(s: ProjectState)
    requires s.GoalSet? || s.FileUploaded? || s.SchemaReturned?
    ensures NextStep(s, Forward(s)) != s
    ensures NextStep(NextStep(s, Forward(s)), BackButton) == s
    ensures NextStep(Complete, BackButton) == Complete
  {
  }

  /** A whole pass through the wizard returns to GOAL_SET. */
  lemma FullPass()
    ensures Walk(GoalSet, [NextButton, NextButton, ApproveButton, CompleteButton]) == Complete
    ensures Walk(GoalSet, [NextButton, NextButton, ApproveButton, CompleteButton, SaveButton]) == GoalSet
  {
    var p := [NextButton, NextButton, ApproveButton, CompleteButton, SaveButton];
    assert p[1..] == [NextButton, ApproveButton, CompleteButton, SaveButton];
    assert p[1..][1..] == [ApproveButton, CompleteButton, SaveButton];
    assert p[1..][1..][1..] == [CompleteButton, SaveButton];
    assert p[1..][1..][1..][1..] == [SaveButton];
    var q := [NextButton, NextButton, ApproveButton, CompleteButton];
    assert q[1..] == [NextButton, ApproveButton, CompleteButton];
    assert q[1..][1..] == [ApproveButton, CompleteButton];
    assert q[1..][1..][1..] == [CompleteButton];
  }

  /** The files an upload adds: the `TextFile` of its name and decoded text. */
  function Uploaded(upload: Option<Upload>): seq<TextFile> {
    if upload.Some? && upload.value.text.Some? then [TextFile(upload.value.name, upload.value.text.value)] else []
  }

  /** The session-state keys the wizard owns, as one value. */
  datatype WizardView = WizardView(
    step: ProjectState,
    tempProject: Project?,
    userInput: Option<string>,
    projectSetup: Option<ProjectSetup>,
    schemaResponse: Option<ResponseSchema>,
    exampleResponse: Option<seq<ResponseSchemaResults>>,
    projectCreated: bool)

  /** `st.session_state` as far as the wizard uses it. */
  class Wizard {
    var step: ProjectState                                    // create_project_step
    var tempProject: Project?                                 // temp_project
    var userInput: Option<string>                             // user_input
    var projectSetup: Option<ProjectSetup>                    // project_setup
    var schemaResponse: Option<ResponseSchema>                // schema_response
    var exampleResponse: Option<seq<ResponseSchemaResults>>   // example_response
    var projectCreated: bool                                  // project_created

    function View(): WizardView
      reads this
    {
      WizardView(step, tempProject, userInput, projectSetup, schemaResponse, exampleResponse, projectCreated)
    }

    /** The step is one of the five, and the draft project is still in its
        initial lifecycle state (the wizard never changes it). */
    ghost predicate Valid()
      reads this, tempProject
    {
      IsWizardStep(step) && (tempProject != null ==> tempProject.state == GoalSet)
    }

    /** The first visit (create_project.py:10-13): step GOAL_SET, no draft. */
    constructor ()
      ensures View() == WizardView(GoalSet, null, None, None, None, None, false)
      ensures Valid()
    {
      step := GoalSet;
      tempProject := null;
      userInput := None;
      projectSetup := None;
      schemaResponse := None;
      exampleResponse := None;
      projectCreated := false;
    }

    /** `goal_set_step` (create_project.py:33-68). A submitted goal is stored;
        the next run asks for a setup; once a setup exists every run makes a
        fresh draft from the three widgets, and Next moves to FILE_UPLOADED and
        clears the goal and the setup. */
    method GoalStep(chat: Option<string>, setup: string -> Result<ProjectSetup>, fields: ProjectSetup, button: Button)
      returns (r: Outcome)
      requires step == GoalSet
      modifies this
      ensures if old(userInput).None? && Truthy(chat) then
          r == Rerun && View() == old(View()).(userInput := chat)
        else if Truthy(old(userInput)) && old(projectSetup).None? then
          match setup(old(userInput).value)
          case Failure(e) => r == Raised(e) && View() == old(View())
          case Success(s) => r == Rerun && View() == old(View()).(projectSetup := Some(s))
        else if old(projectSetup).Some? then
          tempProject != null && fresh(tempProject)
          && tempProject.Record() == NewRecord(fields.title, fields.description, fields.prompt)
          && if button == NextButton then
               r == Rerun
               && View() == old(View()).(step := NextStep(GoalSet, button), tempProject := tempProject, userInput := None, projectSetup := None)
             else
               r == Returned(tempProject) && View() == old(View()).(tempProject := tempProject)
        else
          r == Returned(tempProject) && View() == old(View())
    {
      if userInput.None? && Truthy(chat) {
        userInput := chat;
        return Rerun;
      }
      if Truthy(userInput) && projectSetup.None? {
        match setup(userInput.value)
        case Failure(e) =>
          return Raised(e);
        case Success(s) =>
          projectSetup := Some(s);
          return Rerun;
      }
      if projectSetup.Some? {
        tempProject := new Project(fields.title, fields.description, fields.prompt);
        if button == NextButton {
          step := FileUploaded;
          userInput := None;
          projectSetup := None;
          return Rerun;
        }
      }
      return Returned(tempProject);
    }

    /** `file_upload_step` (create_project.py:70-88). An upload is decoded
        first, then appended as exactly one file to the draft; Back goes to
        GOAL_SET, Next to SCHEMA_RETURNED. */
    method FileStep(upload: Option<Upload>, button: Button) returns (r: Outcome)
      requires step == FileUploaded
      modifies this, tempProject
      ensures tempProject == old(tempProject)
      ensures tempProject != null ==>
        tempProject.Record() == old(tempProject.Record()).(files := old(tempProject.files) + Uploaded(upload))
      ensures if upload.Some? && upload.value.text.None? then
          r == Raised(NotUtf8) && View() == old(View())
        else if upload.Some? && tempProject == null then
          r == Raised(AttributeMissing("files")) && View() == old(View())
        else
          r == (if button == BackButton || button == NextButton then Rerun else Returned(tempProject))
          && View() == old(View()).(step := NextStep(FileUploaded, button))
    {
      if upload.Some? {
        if upload.value.text.None? {
          return Raised(NotUtf8);
        }
        var file := TextFile(upload.value.name, upload.value.text.value);
        if tempProject == null {
          return Raised(AttributeMissing("files"));
        }
        tempProject.files := tempProject.files + [file];
      }
      if button == BackButton {
        step := GoalSet;
        return Rerun;
      }
      if button == NextButton {
        step := SchemaReturned;
        return Rerun;
      }
      return Returned(tempProject);
    }

    /** `schema_returned_step` (create_project.py:90-116). Without a cached
        proposal the run asks for one from the first file and the prompt;
        with one, Back returns to FILE_UPLOADED keeping it, and Approve moves
        to SCHEMA_APPROVED, stores it as the draft's schema and clears it. */
    method SchemaStep(propose: (string, string) -> Result<ResponseSchema>, button: Button) returns (r: Outcome)
      requires step == SchemaReturned
      modifies this, tempProject
      ensures tempProject == old(tempProject)
      ensures tempProject != null ==>
        tempProject.Record() ==
          if old(schemaResponse).Some? && button == ApproveButton
          then old(tempProject.Record()).(schema := old(schemaResponse))
          else old(tempProject.Record())
      ensures if old(schemaResponse).None? then
          if tempProject == null then r == Raised(AttributeMissing("files")) && View() == old(View())
          else if |tempProject.files| == 0 then r == Raised(IndexOutOfRange) && View() == old(View())
          else match propose(tempProject.files[0].contents, tempProject.prompt)
            case Failure(e) => r == Raised(e) && View() == old(View())
            case Success(s) => r == Rerun && View() == old(View()).(schemaResponse := Some(s))
        else if button == BackButton then
          r == Rerun && View() == old(View()).(step := NextStep(SchemaReturned, button))
        else if button == ApproveButton then
          if tempProject == null then
            r == Raised(AttributeMissing("schema")) && View() == old(View()).(step := NextStep(SchemaReturned, button))
          else
            r == Rerun && View() == old(View()).(step := NextStep(SchemaReturned, button), schemaResponse := None)
        else
          r == Returned(tempProject) && View() == old(View())
    {
      if schemaResponse.None? {
        if tempProject == null {
          return Raised(AttributeMissing("files"));
        }
        if |tempProject.files| == 0 {
          return Raised(IndexOutOfRange);
        }
        match propose(tempProject.files[0].contents, tempProject.prompt)
        case Failure(e) =>
          return Raised(e);
        case Success(s) =>
          schemaResponse := Some(s);
          return Rerun;
      }
      if button == BackButton {
        step := FileUploaded;
        return Rerun;
      }
      if button == ApproveButton {
        step := SchemaApproved;
        if tempProject == null {
          return Raised(AttributeMissing("schema"));
        }
        tempProject.schema := schemaResponse;
        schemaResponse := None;
        return Rerun;
      }
      return Returned(tempProject);
    }

    /** How a first visit of the example step ends, and the session it leaves
        (create_project.py:120-127): the draft's schema is run on its first
        file and the records are cached; a missing draft, an empty file list
        or a failing `run_schema` raises and changes nothing. */
    function ExampleRun<S>(extract: Request -> Completion<S>, str: S -> string): (Outcome, WizardView)
      reads this, tempProject
    {
      if tempProject == null then (Raised(AttributeMissing("prompt")), View())
      else if |tempProject.files| == 0 then (Raised(IndexOutOfRange), View())
      else match RunSchema(tempProject.prompt, tempProject.files[0].contents, tempProject.schema, extract, str)
        case Failure(e) => (Raised(e), View())
        case Success(records) => (Rerun, View().(exampleResponse := Some(records)))
    }

    /** The first half of `example_generated_step` (create_project.py:120-127):
        run the draft's schema on its first file and cache the records. */
    method GenerateExample<S>(extract: Request -> Completion<S>, str: S -> string) returns (r: Outcome)
      requires exampleResponse.None?
      modifies this
      ensures r.Rerun? || r.Raised?
      ensures (r, View()) == old(ExampleRun(extract, str))
    {
      if tempProject == null {
        return Raised(AttributeMissing("prompt"));
      }
      if |tempProject.files| == 0 {
        return Raised(IndexOutOfRange);
      }
      match RunSchema(tempProject.prompt, tempProject.files[0].contents, tempProject.schema, extract, str)
      case Failure(e) =>
        return Raised(e);
      case Success(records) =>
        exampleResponse := Some(records);
        return Rerun;
    }

    /** `example_generated_step` as written (create_project.py:118-144): once
        the example exists, line 130 reads `data_fields` of the list that
        `run_schema` returned, which raises before the buttons are drawn. No
        run of this step ever changes the step. */
    method ExampleStepAsWritten<S>(extract: Request -> Completion<S>, str: S -> string, button: Button) returns (r: Outcome)
      requires step == SchemaApproved
      modifies this
      ensures step == old(step)
      ensures !r.Returned?
      ensures old(exampleResponse).None? ==> (r, View()) == old(ExampleRun(extract, str))
      ensures old(exampleResponse).Some? ==> r == Raised(AttributeMissing("data_fields")) && View() == old(View())
    {
      if exampleResponse.None? {
        r := GenerateExample(extract, str);
        return;
      }
      return Raised(AttributeMissing("data_fields"));
    }

    /** `example_generated_step` with the example shown as the list of records
        it is: Back returns to SCHEMA_RETURNED, Complete moves to COMPLETE and
        clears the example. */
    method ExampleStep<S>(extract: Request -> Completion<S>, str: S -> string, button: Button) returns (r: Outcome)
      requires step == SchemaApproved
      modifies this
      ensures old(exampleResponse).None? ==> r.Rerun? || r.Raised?
      ensures old(exampleResponse).None? ==> (r, View()) == old(ExampleRun(extract, str))
      ensures old(exampleResponse).Some? ==>
        r == (if button == BackButton || button == CompleteButton then Rerun else Returned(tempProject))
        && View() == old(View()).(step := NextStep(SchemaApproved, button),
                                  exampleResponse := if button == CompleteButton then None else old(exampleResponse))
    {
      if exampleResponse.None? {
        r := GenerateExample(extract, str);
        return;
      }
      if button == BackButton {
        step := SchemaReturned;
        return Rerun;
      }
      if button == CompleteButton {
        step := Complete;
        exampleResponse := None;
        return Rerun;
      }
      return Returned(tempProject);
    }

    /** `complete_step` (create_project.py:146-167). Save makes a new project
        with the draft's title, description and prompt (the session keys when
        there is no draft), in state COMPLETE with no files and no schema, and
        resets the wizard; without Save nothing changes and None is returned. */
    method CompleteStep(fallback: ProjectSetup, button: Button) returns (r: Outcome)
      requires step == Complete
      modifies this
      ensures var source :=
          if old(tempProject) != null
          then ProjectSetup(old(tempProject.title), old(tempProject.description), old(tempProject.prompt))
          else fallback;
        if button == SaveButton then
          r.Returned? && r.project != null && fresh(r.project)
          && r.project.Record() == NewRecord(source.title, source.description, source.prompt).(state := Complete)
          && View() == old(View()).(step := NextStep(Complete, button), tempProject := null, projectCreated := true)
        else
          r == Returned(null) && View() == old(View())
    {
      var title := if tempProject != null then tempProject.title else fallback.title;
      var description := if tempProject != null then tempProject.description else fallback.description;
      var prompt := if tempProject != null then tempProject.prompt else fallback.prompt;
      if button == SaveButton {
        var project := new Project(title, description, prompt);
        project.state := Complete;
        step := GoalSet;
        tempProject := null;
        projectCreated := true;
        return Returned(project);
      }
      return Returned(null);
    }

    /** What one run of `create_project_workflow` did, judged from the step
        stored before it: the contract of that step's method over the parts
        of `input` it reads (SCHEMA_APPROVED runs `ExampleStep`), and for a
        step without a branch the draft returned and nothing changed. Only
        the file and schema steps change the attributes of `draft`, the
        draft before the run. */
    twostate predicate Dispatched<S>(input: Interaction<S>, str: S -> string, draft: Project?, new r: Outcome)
      reads this, tempProject, draft, if r.Returned? && r.project != null then {r.project} else {}
    {
      && draft == old(tempProject)
      && (old(step) != FileUploaded && old(step) != SchemaReturned && draft != null ==>
            draft.Record() == old(draft.Record()))
      && match old(step)
      case GoalSet =>
        if old(userInput).None? && Truthy(input.chat) then
          r == Rerun && View() == old(View()).(userInput := input.chat)
        else if Truthy(old(userInput)) && old(projectSetup).None? then
          (match input.setup(old(userInput).value)
           case Failure(e) => r == Raised(e) && View() == old(View())
           case Success(s) => r == Rerun && View() == old(View()).(projectSetup := Some(s)))
        else if old(projectSetup).Some? then
          tempProject != null && fresh(tempProject)
          && tempProject.Record() == NewRecord(input.fields.title, input.fields.description, input.fields.prompt)
          && if input.button == NextButton then
               r == Rerun
               && View() == old(View()).(step := NextStep(GoalSet, input.button), tempProject := tempProject, userInput := None, projectSetup := None)
             else
               r == Returned(tempProject) && View() == old(View()).(tempProject := tempProject)
        else
          r == Returned(tempProject) && View() == old(View())
      case FileUploaded =>
        && tempProject == old(tempProject)
        && (tempProject != null ==>
              tempProject.Record() == old(tempProject.Record()).(files := old(tempProject.files) + Uploaded(input.upload)))
        && if input.upload.Some? && input.upload.value.text.None? then
             r == Raised(NotUtf8) && View() == old(View())
           else if input.upload.Some? && tempProject == null then
             r == Raised(AttributeMissing("files")) && View() == old(View())
           else
             r == (if input.button == BackButton || input.button == NextButton then Rerun else Returned(tempProject))
             && View() == old(View()).(step := NextStep(FileUploaded, input.button))
      case SchemaReturned =>
        && tempProject == old(tempProject)
        && (tempProject != null ==>
              tempProject.Record() ==
                if old(schemaResponse).Some? && input.button == ApproveButton
                then old(tempProject.Record()).(schema := old(schemaResponse))
                else old(tempProject.Record()))
        && if old(schemaResponse).None? then
             if tempProject == null then r == Raised(AttributeMissing("files")) && View() == old(View())
             else if |tempProject.files| == 0 then r == Raised(IndexOutOfRange) && View() == old(View())
             else
               (match input.propose(tempProject.files[0].contents, tempProject.prompt)
                case Failure(e) => r == Raised(e) && View() == old(View())
                case Success(s) => r == Rerun && View() == old(View()).(schemaResponse := Some(s)))
           else if input.button == BackButton then
             r == Rerun && View() == old(View()).(step := NextStep(SchemaReturned, input.button))
           else if input.button == ApproveButton then
             if tempProject == null then
               r == Raised(AttributeMissing("schema")) && View() == old(View()).(step := NextStep(SchemaReturned, input.button))
             else
               r == Rerun && View() == old(View()).(step := NextStep(SchemaReturned, input.button), schemaResponse := None)
           else
             r == Returned(tempProject) && View() == old(View())
      case SchemaApproved =>
        if old(exampleResponse).None? then
          (r, View()) == old(ExampleRun(input.extract, str))
        else
          r == (if input.button == BackButton || input.button == CompleteButton then Rerun else Returned(tempProject))
          && View() == old(View()).(step := NextStep(SchemaApproved, input.button),
                                    exampleResponse := if input.button == CompleteButton then None else old(exampleResponse))
      case Complete =>
        var source :=
          if old(tempProject) != null
          then ProjectSetup(old(tempProject.title), old(tempProject.description), old(tempProject.prompt))
          else input.fallback;
        if input.button == SaveButton then
          r.Returned? && r.project != null && fresh(r.project)
          && r.project.Record() == NewRecord(source.title, source.description, source.prompt).(state := Complete)
          && View() == old(View()).(step := NextStep(Complete, input.button), tempProject := null, projectCreated := true)
        else
          r == Returned(null) && View() == old(View())
      case _ =>
        r == Returned(old(tempProject)) && View() == old(View())
    }

    /** `create_project_workflow` (create_project.py:7-31): dispatch on the
        stored step (SCHEMA_APPROVED runs the example step; a step without a
        branch falls through), then keep a returned project as the draft. */
    method Workflow<S>(input: Interaction<S>, str: S -> string) returns (r: Outcome)
      modifies this, tempProject
      ensures Dispatched(input, str, old(tempProject), r)
      ensures old(step) != Complete && r.Returned? && r.project != null ==> tempProject == r.project
      ensures step == old(step) || step == NextStep(old(step), input.button)
      ensures old(Valid()) ==> Valid()
      ensures old(Valid()) && r.Returned? && r.project != null && r.project.state == Complete ==>
        old(step) == Complete && input.button == SaveButton && fresh(r.project)
        && r.project.files == [] && r.project.schema == None && tempProject == null
    {
      match step {
        case GoalSet =>
          r := GoalStep(input.chat, input.setup, input.fields, input.button);
        case FileUploaded =>
          r := FileStep(input.upload, input.button);
        case SchemaReturned =>
          r := SchemaStep(input.propose, input.button);
        case SchemaApproved =>
          r := ExampleStep(input.extract, str, input.button);
        case Complete =>
          r := CompleteStep(input.fallback, input.button);
          return;
        case _ =>
          r := Returned(tempProject);
      }
      if r.Returned? && r.project != null {
        tempProject := r.project;
      }
    }

    /** The "Create New Project" button of main.py:118-122 drops the draft but
        leaves the stored step as it is. */
    method DropDraft()
      modifies this
      ensures View() == old(View()).(tempProject := null)
    {
      tempProject := null;
    }
  }
}
