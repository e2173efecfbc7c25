# Structured output schema generator — a Dafny model of its core

The application is a Streamlit tool. A user states what they want extracted
from text files. A language model proposes a project and then a schema (a list
of named, typed fields). The schema is compiled into a strict JSON-schema
"response format", and every file of the project is run through the
completion service to get structured records back.

This project models the logic of that tool. The Streamlit screens and the
OpenAI calls are not part of it.

- `common.dfy` (module `Common`): the shared types.
  - `Option` and a failure-compatible `Result`.
  - `Error`, which lists the Python exceptions the code can raise: `KeyError`, `TypeError`, pydantic validation, `ValueError` for an unknown state label, a refusal, a failed call, `AttributeError`, `IndexError`, and the `UnicodeDecodeError` of an upload that is not UTF-8 (`NotUtf8`).
- `util.dfy` (module `Util`): the `ProjectState` enumeration with its labels, `TextFile`, and the `Project` object.
  - `Project` is a class, because its attributes are assigned in place.
  - `to_dict`/`from_dict` are modelled over a value record and a typed dictionary.
- `model.dfy` (module `Model`):
  - the four pydantic schema classes and their dictionary codecs over a tagged JSON tree;
  - `create_dynamic_model`, an imperative loop proved equal to a pure contract function whose shape is proved level by level;
  - the refusal check and the decoder at the end of `run_schema`.
- `create_project.dfy` (module `CreateProject`): the creation wizard.
  - `st.session_state` is a `Wizard` class. Each script run of a step is one method.
  - Widget values, the pressed button and the language-model answers are parameters.
  - A run stopped by `st.rerun()` ends in `Rerun`. An exception that escapes ends in `Raised(error)`.
  - The step edges are the pure function `NextStep`, and every step method is tied to it.
- `app.dfy` (module `App`):
  - the batch loop `run_project`, proved against the recursive report function `Report`;
  - the session gate in `main`, which admits a created project only when it is COMPLETE.

Behaviour of the code that the model keeps as written:
- `ResponseSchemaResults.from_dict` rebuilds its fields with `SchemaField.from_dict`. The model accepts the same dictionaries and gives every field `value = None`.
- `SchemaFieldResults.to_dict` leaves out `value`.
- In `properties`, a later field with a repeated name overwrites the earlier entry, while `required` keeps both names.
- The file step appends the uploaded file on every run in which the uploader still holds a file.
- The goal step builds a new draft on every run once a setup exists.
- Approve sets the step before it writes the schema. With no draft it raises `AttributeError` with the step already changed.
- "Create New Project" drops the draft but leaves the wizard's step as it was.
- Decoding an upload comes before the append, so an upload that is not UTF-8 raises and leaves the draft unchanged.
- A saved project is built from the draft's three strings only, so it has no files and no schema.
- Two places read `data_fields` of a list and always raise (see Findings). For each, the model keeps an as-written member and a corrected one. The wizard's dispatcher `CreateProject.Wizard.Workflow` uses the corrected example step. As written, no run ever leaves SCHEMA_APPROVED, so COMPLETE is never reached and the creation gate never admits a project.
- The model has only what the code has. `ProjectState` has no ERROR member (util.py:4-11), `TextFile` carries no state (util.py:13-16), nothing raises an `InvalidTransition` or `NoSchemaApproved` error, and there is no timeout or lock.

Values are modelled like this:
- The completion service is an uninterpreted function from the request (prompt, contents, compiled contract) to `Failed | Answer(refusal, items)`. `refusal` is None when the service did not refuse. As at model.py:226, only a non-empty refusal raises; an empty one is treated like none, and the items are decoded.
- An upload is its name and its text decoded as UTF-8, or no text when the bytes are not UTF-8.
- Items are already parsed, each a map from field name to an opaque scalar.
- Python's `str` of a scalar is an uninterpreted function parameter `str`.
- In the batch run, the `k`-th call is answered by `service(k)`, so each file may get a different answer.

## Model

| member | source | states |
|---|---|---|
| Util.ProjectState.Label | util.py:4-11 | the value of each enumeration member; `Util.LabelRoundTrip` states that the seven are distinct and `Util.StateFromLabel` inverts it |
| Util.StateFromLabel | util.py:45 | success gives the state carrying exactly that label; failure is `UnknownLabel(text)` and happens only when no state has that label |
| Util.LabelRoundTrip | util.py:4-11 | the seven labels are pairwise distinct, so looking up a state's label gives that state back |
| Util.RecordToDictShape | util.py:28-37 | `to_dict` has exactly the seven keys, stores the state as its label and passes files, output and schema through unchanged |
| Util.RecordToDict | util.py:28-37 | the dictionary `to_dict` builds; its keys and entries are stated by `Util.RecordToDictShape`, and `Util.RecordRoundTrip` proves `from_dict` inverts it |
| Util.RecordFromDict | util.py:39-46 | succeeds exactly when the seven lookups all succeed and the stored state string is one of the labels, extra keys allowed; on success every entry `to_dict` would write for the result is the entry found in the input; a missing title fails first, with a `KeyError` for it |
| Util.RecordRoundTrip | util.py:28-46 | `from_dict(to_dict(p))` restores title, description, prompt, files, output, schema and state exactly |
| Util.UnknownStateFails | util.py:45 | with the other entries well formed, decoding fails exactly when the stored state string is none of the seven labels, and then with `UnknownLabel` |
| Util.Project.constructor | util.py:19-26 | a new project has the given strings, no files, no output, no schema and state GOAL_SET |
| Util.Project.ToDict | util.py:28-37 | `to_dict` of the object is `Util.RecordToDict` of its current attributes, so the lemmas about that function apply |
| Util.Project.FromDict | util.py:39-46 | returns a fresh object whose attributes are the decoded record exactly when the dictionary decodes, and otherwise the same error |
| Model.FieldToDict | model.py:23-28 | the field's dictionary; `Model.FieldRoundTrip` proves `from_dict` inverts it and `Model.FieldToDictInjective` that it loses nothing |
| Model.FieldFromDict | model.py:30-36 | success exactly when the value is an object with string entries under name, description and data_type; the result holds those strings; a missing name is a `KeyError` for "name" |
| Model.FieldRoundTrip | model.py:23-36 | `SchemaField.from_dict(f.to_dict()) == f` |
| Model.FieldToDictInjective | model.py:23-28 | two definitions with the same dictionary are equal |
| Model.FieldsFromDict | model.py:72 | the field list decodes exactly when every item decodes, and the result is item by item the decoded items, in order |
| Model.FieldsRoundTrip | model.py:63-72 | decoding the encoded field list gives the same fields in the same order |
| Model.IterationOf | model.py:72 | what the `for` over `data["data_fields"]` yields: a list's items, nothing for an empty string or dictionary, a `TypeError` otherwise; `Model.SchemaFromDict`'s contract is stated through it |
| Model.SchemaToDict | model.py:63-67 | the schema's dictionary; `Model.SchemaRoundTrip` proves `from_dict` inverts it |
| Model.SchemaFromDict | model.py:69-74 | success exactly when the object has `data_fields`, iterating it gives items that all decode, and a string `confirmation_message` is present; the fields are those items decoded, in order, and the message is the stored one; a missing `data_fields` key is a `KeyError` for it |
| Model.SchemaRoundTrip | model.py:63-74 | `ResponseSchema.from_dict(s.to_dict()) == s`: the fields in order and the confirmation message are kept |
| Model.ResultFieldToDict | model.py:42-49 | a result field serialises exactly like its definition: `value` is excluded |
| Model.ResultFieldFromDict | model.py:51-57 | decodes exactly the dictionaries a definition decodes from; the name, description and data_type are those a definition decodes to, and the value is None |
| Model.ResultFieldRoundTrip | model.py:42-57 | the dictionary does not depend on `value`, and a round trip gives the field back with `value` = None |
| Model.ResultsToDictIsSchemaToDict | model.py:80-84 | a record serialises exactly like the schema made of its field definitions and message |
| Model.ResultsToDict | model.py:80-84 | the record's dictionary; `Model.ResultsToDictIsSchemaToDict` proves it equals that of the schema of its definitions, and `Model.ResultsRoundTrip` that `from_dict` recovers the definitions |
| Model.ResultsFromDict | model.py:86-91 | decodes exactly the dictionaries a schema decodes from; the field definitions and the message are those `ResponseSchema.from_dict` gives (the field list is rebuilt with `SchemaField.from_dict`), and every value is None |
| Model.ResultsRoundTrip | model.py:80-91 | a record round-trips with its definitions, their order and the message kept, and every value cleared |
| Model.CompileFields | model.py:181-186 | the loop leaves `properties` equal to the last-write-wins map of the fields and `required` equal to the names in schema order |
| Model.CreateDynamicModel | model.py:180-212 | the returned format is the pure contract of the schema, so equal schemas give equal formats |
| Model.PropertiesKeys | model.py:184-185 | the `properties` keys are exactly the schema's field names |
| Model.PropertiesLastWins | model.py:184-185 | a name's entry is the lower-cased type of the last field with that name |
| Model.PropertiesOfUnique | model.py:184-185 | with unique names every field's name maps to `{"type": lower(data_type)}` of that field |
| Model.PropertiesCount | model.py:184-186 | with unique names, `properties` and `required` both have one entry per field |
| Model.Contract | model.py:188-210 | the contract `create_dynamic_model` returns; its shape is stated level by level by `Model.EnvelopeShape`, `Model.RecordListShape`, `Model.ItemObjectShape` and `Model.ContractShape`, and its equality by `Model.ContractEquality` |
| Model.EnvelopeShape | model.py:188-210 | the format has type "json_schema", is named "schema_response", is strict, and carries the record-list schema |
| Model.RecordListShape | model.py:192-207 | the schema is a closed object requiring exactly `["data_fields"]`, whose only property is an array of item objects |
| Model.ItemObjectShape | model.py:197-202 | each item is a closed object whose `required` is the names in schema order and whose `properties` is the compiled map |
| Model.ContractShape | model.py:188-212 | at their full paths inside every contract: `required` is exactly `["data_fields"]`, extra properties are banned, and `data_fields` is an array of closed items |
| Model.ContractEquality | model.py:180-212 | two schemas compile to the same contract exactly when their name lists and their `properties` maps are equal |
| Model.PropertiesOfSameNamesAndTypes | model.py:184-185 | fields that agree pointwise on name and lower-cased type give the same `properties` |
| Model.ContractIgnoresDescriptions | model.py:180-212 | descriptions, the letter case of types and the confirmation message never reach the contract |
| Model.RunSchema | model.py:221-246 | no schema fails with `AttributeError`; a failed call raises; a non-empty refusal raises its text; success exactly when the service answers without a non-empty refusal, and then the records are the items decoded in item order, one per item |
| Model.DecodeField | model.py:235-240 | one result field: the definition's name, description and type with `str(item.get(name, ''))`; stated by `Model.DecodeShape` and `Model.DecodedDefinitions` |
| Model.DecodeItem | model.py:233-243 | one record per item, with the schema's fields in order and its message; stated by `Model.DecodeShape`, `Model.DecodedDefinitions` and `Model.DecodeItemIgnoresExtraKeys` |
| Model.Decode | model.py:232-246 | one record per parsed item, in item order; stated by `Model.DecodeShape` and `Model.DecodeAppend`, and tied to `run_schema` by `Model.RunSchema` |
| Model.DecodeShape | model.py:232-245 | record `k` carries the schema's message, and its field `i` has field `i`'s definition and the value `str(item[name])`, or `''` when the key is absent |
| Model.DecodedDefinitions | model.py:234-243 | stripping the values of a decoded record gives the schema's fields, and the record serialises like the schema |
| Model.DecodeItemIgnoresExtraKeys | model.py:239 | keys of an item that name no schema field do not change its record |
| Model.DecodeAppend | model.py:232-246 | decoding is item by item and distributes over concatenation of the item lists |
| Model.RefusalCheck | model.py:226-227 | a non-empty refusal raises its text whatever the content holds; an empty refusal behaves exactly like no refusal, so the content is decoded |
| CreateProject.NextStep | create_project.py:61-166 | the step each button handler sets, and no change without one; stated by `CreateProject.OnlyExits`, `CreateProject.BackUndoesForward`, `CreateProject.WalkStaysInWizard` and `CreateProject.FullPass`, and every step method that moves the step (`GoalStep`, `FileStep`, `SchemaStep`, `ExampleStep`, `CompleteStep`, and `Workflow` through them) states the new step through it |
| CreateProject.WalkStaysInWizard | create_project.py:18-27 | from a wizard step, any series of runs stays among the five stored steps, so EXAMPLE_GENERATED and RUNNING are never entered |
| CreateProject.OnlyExits | create_project.py:61-66 | GOAL_SET is left only by Next, to FILE_UPLOADED; COMPLETE is left only by Save, to GOAL_SET |
| CreateProject.BackUndoesForward | create_project.py:80-142 | Back undoes the forward edge out of GOAL_SET, FILE_UPLOADED and SCHEMA_RETURNED; Back does nothing at COMPLETE |
| CreateProject.FullPass | create_project.py:61-166 | on the button edges, Next, Next, Approve, Complete reaches COMPLETE and Save then returns to GOAL_SET; the Complete edge is reached only with the corrected example step (see Findings) |
| CreateProject.Wizard.constructor | create_project.py:10-13 | the first visit starts at GOAL_SET with no draft and nothing cached |
| CreateProject.Wizard.GoalStep | create_project.py:33-68 | a goal from the chat is stored; the next run stores the proposed setup or raises its error; once a setup exists every run makes a fresh draft from the widgets, and Next moves to FILE_UPLOADED and clears the goal and the setup |
| CreateProject.Wizard.FileStep | create_project.py:70-88 | an upload that is not UTF-8 raises before anything changes; otherwise an upload appends exactly its one file and keeps the earlier files; with no draft an upload raises; the new step is the `NextStep` edge for the button; the draft keeps its other attributes |
| CreateProject.Wizard.SchemaStep | create_project.py:90-116 | with nothing cached, the run proposes a schema from the first file and the prompt; a missing draft or an empty file list raises. With a proposal cached, Back goes to FILE_UPLOADED and Approve moves to SCHEMA_APPROVED, stores the proposal as the draft's schema and clears the cache |
| CreateProject.Wizard.ExampleRun | create_project.py:120-127 | the outcome and the session after a first visit of the example step: `AttributeError` without a draft, `IndexError` without files, the error of `run_schema`, or a rerun with exactly its records cached; `CreateProject.Wizard.GenerateExample` and both example steps are proved equal to it |
| CreateProject.Wizard.GenerateExample | create_project.py:120-127 | runs the draft's schema on its first file and caches exactly the records `run_schema` returns, with the rest of the session unchanged; or raises with nothing changed (no draft, no files, no schema, refusal, failed call); it never returns normally |
| CreateProject.Wizard.ExampleStepAsWritten | create_project.py:118-144 | as written: the first visit caches the example or raises, as `GenerateExample` does; after that every run raises `AttributeError` for `data_fields` with nothing changed; no run changes the step or returns |
| CreateProject.Wizard.ExampleStep | create_project.py:118-144 | corrected display: the first visit caches the example or raises, as `GenerateExample` does; once the example exists, Back goes to SCHEMA_RETURNED, Complete goes to COMPLETE and clears the example, and a run without either returns the draft |
| CreateProject.Wizard.CompleteStep | create_project.py:146-167 | Save returns a fresh project with the title, description and prompt of the draft (of the session keys without a draft), state COMPLETE and nothing else, and resets step, draft and flag; otherwise None and nothing changes |
| CreateProject.Wizard.Dispatched | create_project.py:15-31 | what one run of the workflow does, by the stored step: the contract of `GoalStep`, `FileStep`, `SchemaStep`, the corrected `ExampleStep` or `CompleteStep` over the inputs that step reads, and for a step without a branch the draft returned with nothing changed; the draft before the run keeps all its attributes except at FILE_UPLOADED and SCHEMA_RETURNED, the two steps that write to it |
| CreateProject.Wizard.Workflow | create_project.py:7-31 | the outcome and the new session are those `Dispatched` gives for the stored step, so at SCHEMA_APPROVED the corrected `ExampleStep` runs, not the as-written one (see Findings); a project returned by any step but COMPLETE is the draft afterwards; one run changes the step only along the `NextStep` edge of its button, keeps the wizard invariant, and a COMPLETE project comes back only from Save: fresh, with no files and no schema |
| CreateProject.Wizard.DropDraft | main.py:121 | only the draft is dropped; the step and the caches stay |
| App.RunFrom | main.py:86-92 | the loop from file `i` on; stated by `App.RunFromFailFast` and `App.RunFromStopsAtFirstFailure` |
| App.Report | main.py:86-92 | the loop over all files; stated by `App.ReportFailFast`, `App.AllSucceed`, `App.ReportEdges` and `App.ReportRecordsFollowSchema`, and `App.RunProject` is proved equal to it |
| App.RunFromFailFast | main.py:86-92 | from file `i`, the responses are the records of consecutive successful files; there is no failure exactly when every file from `i` was processed; a failure is the error of the next file |
| App.ReportFailFast | main.py:86-92 | `responses` is exactly the successful prefix in file order; no failure exactly when all files succeeded; the failure is that of the first file that did not succeed |
| App.RunFromStopsAtFirstFailure | main.py:87-92 | when files `i` to `n - 1` succeed and file `n` fails, the run reports `n - i` responses and file `n`'s error |
| App.AllSucceed | main.py:86-97 | when every file succeeds, `responses` has one entry per file and there is no failure |
| App.ReportEdges | main.py:86-97 | an empty file list reports nothing and no failure; without a schema the first file fails and nothing is collected |
| App.ReportRecordsFollowSchema | main.py:88 | every collected record carries the schema's fields in order and its message |
| App.RunProject | main.py:82-97 | the state becomes RUNNING and nothing else about the project changes; the responses and the failure are the fail-fast report; one call per processed file |
| App.RunProjectAsWritten | main.py:82-97 | as written, the call raises `AttributeError` for `data_fields` exactly when the loop met no failure and collected at least one response; the state becomes RUNNING either way |
| App.Session.constructor | main.py:13-17 | no active project, not creating, and a wizard at its first visit |
| App.Session.NewProjectButton | main.py:118-122 | creating, no active project, the draft dropped, the collection unchanged |
| App.Session.CreatePanel | main.py:124-132 | not creating, nothing runs and nothing changes, the session, the wizard and the draft's attributes included; while creating, `ran` is the one run of the wizard as `CreateProject.Wizard.Dispatched` describes it (whenever the wizard invariant held, and whenever nothing was admitted); its project joins the collection, becomes active and ends the creation exactly when it is non-None and COMPLETE; Save at COMPLETE always admits the saved project; an admitted project is fresh with no files and no schema (COMPLETE is reached only through the corrected example step) |

## Left out

- The OpenAI calls (`LLMHelper.__init__`, `chat_completion`, `project_setup`, `extract_schema`) and the messages `run_schema` builds are function parameters, not modelled. The model passes the compiled contract and the prompt and contents on to the service.
- `json.loads` of the completion content is not modelled. The items arrive already parsed, so malformed content and content without `data_fields` are not modelled.
- Any exception raised by the completion call becomes the single outcome `Failed` (error `ServiceFailed`). Its message is not modelled.
- Streamlit rendering, widgets, `st.spinner`, `st.error`/`st.info`/`st.success` and logging are out of scope. So are pandas `DataFrame`/`st.table`. `st.rerun()` is modelled only as the end of a run.
- App.RunProject: the result describes the loop at main.py:86-92 only. As written, the call then raises at main.py:94 whenever the loop collected a response without failing; `App.RunProjectAsWritten` models that raise (see Findings).
- `ProjectsManager` is not part of this model: it is imported but not defined in the repository. The collection is a sequence, and `show_project_list`, `delete_project` and `save_project_changes` are left out.
- The edit modals (main.py:64-80) and `show_project_details` are UI placeholders and are not modelled.
- Util.RecordFromDict: the Python dictionary holds values of any type and `from_dict` stores whatever it finds. The model's entries are typed, and an entry of the wrong kind fails with `WrongType`.
- Model.FieldFromDict: pydantic's coercions are not modelled. Every non-string value is rejected with `ValidationFailed`.
- Model.ResultsFromDict: whether pydantic accepts `SchemaField` objects where `SchemaFieldResults` are declared depends on its version. The model accepts them and gives each field `value` None.
- Model.CompileFields: `str.lower` is modelled on the ASCII letters only. Other characters are kept as they are.
- Model.RunSchema: a schema with no `data_fields` attribute is modelled only as a missing schema (None), not as a value of another type.
- The formatting of extracted scalars is not modelled: `str` is uninterpreted.
- An ERROR state, per-file states, `InvalidTransition` and `NoSchemaApproved` errors, timeouts and run locks are not modelled: the code has none of them (util.py:4-16 declares no such state or field, and no function raises such an error).
- JSON numbers are not modelled, and a JSON object is an unordered map, so the insertion order of `properties` (model.py:181-185) is not kept. Nothing in the code depends on that order: decoding walks the schema's field list.
- Concurrency is not modelled: the code is single-threaded.

## Findings

| source | as written | input that shows it | evidently intended | confidence | as-written member | corrected member |
|---|---|---|---|---|---|---|
| create_project.py:130 | once the example exists, the step reads `.data_fields` of the list `run_schema` returns, which raises `AttributeError` before the Back and Complete buttons are drawn | any run at SCHEMA_APPROVED after the example was cached (`example_response` is a list of records) | show the records and reach the buttons, so Back goes to SCHEMA_RETURNED and Complete goes to COMPLETE | not executed | CreateProject.Wizard.ExampleStepAsWritten | CreateProject.Wizard.ExampleStep |
| main.py:94 | after a run with no failure, the table reads `response.data_fields` of each response, but each response is the list of records `run_schema` returns, so `run_project` raises `AttributeError` | a project with one file whose extraction succeeds | show the records of every file and return normally | not executed | App.RunProjectAsWritten | App.RunProject |
