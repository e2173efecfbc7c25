/** The schema data model of model.py, its dictionary serialisation, the
    output-contract compiler `create_dynamic_model` and the result decoder at
    the end of `run_schema`. The completion service is a parameter. */
module Model {
  import opened Common

  /** A JSON value as the Python code builds and reads it: a tagged tree. */
  datatype Json =
    | JNull
    | JBool(b: bool)
    | JStr(s: string)
    | JArr(items: seq<Json>)
    | JObj(members: map<string, Json>)

  /** One extractable attribute (model.py:18-21). */
  datatype SchemaField = SchemaField(name: string, description: string, dataType: string)

  /** A field definition plus the value extracted for it (model.py:38-42). */
  datatype SchemaFieldResult = SchemaFieldResult(name: string, description: string, dataType: string, value: Option<string>)

  /** A proposed or approved schema (model.py:59-61). */
  datatype ResponseSchema = ResponseSchema(dataFields: seq<SchemaField>, confirmationMessage: string)

  /** One extracted record (model.py:76-78). */
  datatype ResponseSchemaResults = ResponseSchemaResults(dataFields: seq<SchemaFieldResult>, confirmationMessage: string)

  // ---------------------------------------------------------------------------
  // Dictionary serialisation (model.py:23-91)
  // ---------------------------------------------------------------------------

  function FieldToDict(f: SchemaField): Json {
    JObj(map["name" := JStr(f.name), "data_type" := JStr(f.dataType), "description" := JStr(f.description)])
  }

  /** `SchemaField.from_dict`: the three lookups in order (KeyError on the first
      missing key), then pydantic's check that each value is a string. A value
      that is not a dictionary cannot be indexed by a key (TypeError). */
  function FieldFromDict(j: Json): (r: Result<SchemaField>)
    ensures r.Success? <==>
      j.JObj? && "name" in j.members && "description" in j.members && "data_type" in j.members
      && j.members["name"].JStr? && j.members["description"].JStr? && j.members["data_type"].JStr?
    ensures r.Success? ==>
      j.members["name"] == JStr(r.value.name) && j.members["description"] == JStr(r.value.description)
      && j.members["data_type"] == JStr(r.value.dataType)
    ensures j.JObj? && "name" !in j.members ==> r == Failure(KeyMissing("name"))
  {
    if !j.JObj? then Failure(WrongType("name"))
    else if "name" !in j.members then Failure(KeyMissing("name"))
    else if "description" !in j.members then Failure(KeyMissing("description"))
    else if "data_type" !in j.members then Failure(KeyMissing("data_type"))
    else match (j.members["name"], j.members["description"], j.members["data_type"])
      case (JStr(n), JStr(d), JStr(t)) => Success(SchemaField(n, d, t))
      case _ => Failure(ValidationFailed)
  }

  lemma FieldRoundTrip(f: SchemaField)
    ensures FieldFromDict(FieldToDict(f)) == Success(f)
  {
  }

  /** Two field definitions with the same dictionary are the same definition. */
  lemma FieldToDictInjective(a: SchemaField, b: SchemaField)
    requires FieldToDict(a) == FieldToDict(b)
    ensures a == b
  {
    FieldRoundTrip(a);
    FieldRoundTrip(b);
  }

  function FieldsToJson(fields: seq<SchemaField>): seq<Json> {
    seq(|fields|, i requires 0 <= i < |fields| => FieldToDict(fields[i]))
  }

  /** The list comprehension `[SchemaField.from_dict(d) for d in items]`: it
      raises at the first item that does not decode. */
  function FieldsFromDict(items: seq<Json>): (r: Result<seq<SchemaField>>)
    ensures r.Success? <==> forall i :: 0 <= i < |items| ==> FieldFromDict(items[i]).Success?
    ensures r.Success? ==>
      |r.value| == |items| && forall i :: 0 <= i < |items| ==> FieldFromDict(items[i]) == Success(r.value[i])
    decreases |items|
  {
    if |items| == 0 then Success([])
    else
      var f :- FieldFromDict(items[0]);
      var rest :- FieldsFromDict(items[1..]);
      assert forall i :: 1 <= i < |items| ==> items[i] == items[1..][i - 1];
      Success([f] + rest)
  }

  lemma {:induction false} FieldsRoundTrip(fields: seq<SchemaField>)
    ensures FieldsFromDict(FieldsToJson(fields)) == Success(fields)
    decreases |fields|
  {
    if |fields| > 0 {
      FieldsRoundTrip(fields[1..]);
      assert FieldsToJson(fields)[1..] == FieldsToJson(fields[1..]);
      FieldRoundTrip(fields[0]);
      assert [fields[0]] + fields[1..] == fields;
    }
  }

  /** What `for d in value` yields: the items of a list, nothing for an empty
      string or dictionary. Any other value is either not iterable or yields
      strings, which cannot be indexed by "name": a TypeError either way. */
  function IterationOf(value: Json, key: string): Result<seq<Json>> {
    match value
    case JArr(items) => Success(items)
    case JStr(s) => if s == "" then Success([]) else Failure(WrongType(key))
    case JObj(m) => if m == map[] then Success([]) else Failure(WrongType(key))
    case _ => Failure(WrongType(key))
  }

  function SchemaToDict(s: ResponseSchema): Json {
    JObj(map["data_fields" := JArr(FieldsToJson(s.dataFields)),
             "confirmation_message" := JStr(s.confirmationMessage)])
  }

  /** `ResponseSchema.from_dict` (model.py:69-74): the field list is built
      first, then the confirmation message is read and validated. */
  function SchemaFromDict(j: Json): (r: Result<ResponseSchema>)
    ensures r.Success? <==>
      j.JObj? && "data_fields" in j.members
      && IterationOf(j.members["data_fields"], "data_fields").Success?
      && FieldsFromDict(IterationOf(j.members["data_fields"], "data_fields").value).Success?
      && "confirmation_message" in j.members && j.members["confirmation_message"].JStr?
    ensures r.Success? ==>
      FieldsFromDict(IterationOf(j.members["data_fields"], "data_fields").value) == Success(r.value.dataFields)
      && j.members["confirmation_message"] == JStr(r.value.confirmationMessage)
    ensures j.JObj? && "data_fields" !in j.members ==> r == Failure(KeyMissing("data_fields"))
  {
    if !j.JObj? then Failure(WrongType("data_fields"))
    else if "data_fields" !in j.members then Failure(KeyMissing("data_fields"))
    else
      var items :- IterationOf(j.members["data_fields"], "data_fields");
      var fields :- FieldsFromDict(items);
      if "confirmation_message" !in j.members then Failure(KeyMissing("confirmation_message"))
      else match j.members["confirmation_message"]
        case JStr(m) => Success(ResponseSchema(fields, m))
        case _ => Failure(ValidationFailed)
  }

  lemma SchemaRoundTrip(s: ResponseSchema)
    ensures SchemaFromDict(SchemaToDict(s)) == Success(s)
  {
    FieldsRoundTrip(s.dataFields);
  }

  /** The field definition of a result field: everything but `value`. */
  function Definition(f: SchemaFieldResult): SchemaField {
    SchemaField(f.name, f.description, f.dataType)
  }

  /** A result field for a definition, with no value. */
  function Unvalued(f: SchemaField): SchemaFieldResult {
    SchemaFieldResult(f.name, f.description, f.dataType, None)
  }

  /** `SchemaFieldResults.to_dict` (model.py:44-49): `value` is excluded. */
  function ResultFieldToDict(f: SchemaFieldResult): (j: Json)
    ensures j == FieldToDict(Definition(f))
  {
    JObj(map["name" := JStr(f.name), "data_type" := JStr(f.dataType), "description" := JStr(f.description)])
  }

  /** `SchemaFieldResults.from_dict` (model.py:51-57): the same lookups as for
      a definition; `value` keeps its default None. */
  function ResultFieldFromDict(j: Json): (r: Result<SchemaFieldResult>)
    ensures r.Success? <==> FieldFromDict(j).Success?
    ensures r.Success? ==> Definition(r.value) == FieldFromDict(j).value && r.value.value == None
  {
    var f :- FieldFromDict(j);
    Success(Unvalued(f))
  }

  /** The extracted value never reaches the dictionary, so a round trip
      returns the field with no value. */
  lemma ResultFieldRoundTrip(f: SchemaFieldResult)
    ensures ResultFieldToDict(f) == ResultFieldToDict(f.(value := None))
    ensures ResultFieldFromDict(ResultFieldToDict(f)) == Success(f.(value := None))
  {
    FieldRoundTrip(Definition(f));
  }

  function Definitions(fields: seq<SchemaFieldResult>): seq<SchemaField> {
    seq(|fields|, i requires 0 <= i < |fields| => Definition(fields[i]))
  }

  function AllUnvalued(fields: seq<SchemaField>): seq<SchemaFieldResult> {
    seq(|fields|, i requires 0 <= i < |fields| => Unvalued(fields[i]))
  }

  function ResultsToDict(r: ResponseSchemaResults): Json {
    JObj(map["data_fields" := JArr(seq(|r.dataFields|, i requires 0 <= i < |r.dataFields| => ResultFieldToDict(r.dataFields[i]))),
             "confirmation_message" := JStr(r.confirmationMessage)])
  }

  /** A record serialises exactly like the schema made of its definitions. */
  lemma ResultsToDictIsSchemaToDict(r: ResponseSchemaResults)
    ensures ResultsToDict(r) == SchemaToDict(ResponseSchema(Definitions(r.dataFields), r.confirmationMessage))
  {
    var d := Definitions(r.dataFields);
    assert seq(|r.dataFields|, i requires 0 <= i < |r.dataFields| => ResultFieldToDict(r.dataFields[i])) == FieldsToJson(d);
  }

  /** `ResponseSchemaResults.from_dict` (model.py:86-91) rebuilds its fields with
      `SchemaField.from_dict`, exactly as `ResponseSchema.from_dict` does; each
      rebuilt definition becomes a result field without a value. */
  function ResultsFromDict(j: Json): (r: Result<ResponseSchemaResults>)
    ensures r.Success? <==> SchemaFromDict(j).Success?
    ensures r.Success? ==>
      Definitions(r.value.dataFields) == SchemaFromDict(j).value.dataFields
      && r.value.confirmationMessage == SchemaFromDict(j).value.confirmationMessage
    ensures r.Success? ==> forall i :: 0 <= i < |r.value.dataFields| ==> r.value.dataFields[i].value == None
  {
    var s :- SchemaFromDict(j);
    assert Definitions(AllUnvalued(s.dataFields)) == s.dataFields;
    Success(ResponseSchemaResults(AllUnvalued(s.dataFields), s.confirmationMessage))
  }

  /** A record survives a round trip with its definitions and message intact
      and every value cleared. */
  lemma ResultsRoundTrip(r: ResponseSchemaResults)
    ensures ResultsFromDict(ResultsToDict(r)) ==
      Success(ResponseSchemaResults(seq(|r.dataFields|, i requires 0 <= i < |r.dataFields| => r.dataFields[i].(value := None)),
                                    r.confirmationMessage))
  {
    ResultsToDictIsSchemaToDict(r);
    SchemaRoundTrip(ResponseSchema(Definitions(r.dataFields), r.confirmationMessage));
    assert AllUnvalued(Definitions(r.dataFields)) ==
      seq(|r.dataFields|, i requires 0 <= i < |r.dataFields| => r.dataFields[i].(value := None));
  }

  // ---------------------------------------------------------------------------
  // The output contract (model.py:180-212)
  // ---------------------------------------------------------------------------

  /** `str.lower` on the ASCII letters. */
  function LowerChar(c: char): char {
    if 'A' <= c <= 'Z' then (c as int + 32) as char else c
  }

  function Lower(s: string): (r: string)
    ensures |r| == |s|
  {
    seq(|s|, i requires 0 <= i < |s| => LowerChar(s[i]))
  }

  /** The constraint entry `{"type": data_type.lower()}` for one field. */
  function TypeEntry(f: SchemaField): Json {
    JObj(map["type" := JStr(Lower(f.dataType))])
  }

  /** The `properties` dictionary after the loop has seen `fields`: each field
      writes its entry under its name, a later field overwriting an earlier one
      of the same name. */
  function PropertiesOf(fields: seq<SchemaField>): map<string, Json>
    decreases |fields|
  {
    if |fields| == 0 then map[]
    else PropertiesOf(fields[..|fields| - 1])[fields[|fields| - 1].name := TypeEntry(fields[|fields| - 1])]
  }

  function Names(fields: seq<SchemaField>): seq<string> {
    seq(|fields|, i requires 0 <= i < |fields| => fields[i].name)
  }

  function NameSet(fields: seq<SchemaField>): set<string> {
    set i | 0 <= i < |fields| :: fields[i].name
  }

  predicate UniqueNames(fields: seq<SchemaField>) {
    forall i, j :: 0 <= i < j < |fields| ==> fields[i].name != fields[j].name
  }

  function JStrs(ss: seq<string>): seq<Json> {
    seq(|ss|, i requires 0 <= i < |ss| => JStr(ss[i]))
  }

  /** The closed object describing one extracted record. */
  function ItemShape(fields: seq<SchemaField>): Json {
    JObj(map["type" := JStr("object"),
             "properties" := JObj(PropertiesOf(fields)),
             "required" := JArr(JStrs(Names(fields))),
             "additionalProperties" := JBool(false)])
  }

  /** The `schema` object: a closed object whose one required property
      `data_fields` is an array of item objects. */
  function RecordList(fields: seq<SchemaField>): Json {
    JObj(map["type" := JStr("object"),
             "properties" := JObj(map["data_fields" := JObj(map["type" := JStr("array"), "items" := ItemShape(fields)])]),
             "required" := JArr([JStr("data_fields")]),
             "additionalProperties" := JBool(false)])
  }

  /** The `response_format_json` value `create_dynamic_model` returns. */
  function Contract(schema: ResponseSchema): Json {
    JObj(map["type" := JStr("json_schema"),
             "json_schema" := JObj(map["name" := JStr("schema_response"),
                                       "schema" := RecordList(schema.dataFields),
                                       "strict" := JBool(true)])])
  }

  /** The loop at model.py:181-186, filling `properties` and `required_fields`. */
  method CompileFields(fields: seq<SchemaField>) returns (properties: map<string, Json>, required: seq<string>)
    ensures properties == PropertiesOf(fields)
    ensures required == Names(fields)
  {
    properties := map[];
    required := [];
    for i := 0 to |fields|
      invariant properties == PropertiesOf(fields[..i])
      invariant required == Names(fields[..i])
    {
      assert fields[..i + 1][..i] == fields[..i];
      properties := properties[fields[i].name := TypeEntry(fields[i])];
      required := required + [fields[i].name];
    }
    assert fields[..|fields|] == fields;
  }

  /** `create_dynamic_model` (model.py:180-212). Its result is the pure
      function `Contract` of the schema: equal schemas give equal contracts. */
  method CreateDynamicModel(schema: ResponseSchema) returns (contract: Json)
    ensures contract == Contract(schema)
  {
    var properties, requiredFields := CompileFields(schema.dataFields);
    var items := JObj(map["type" := JStr("object"),
                          "properties" := JObj(properties),
                          "required" := JArr(JStrs(requiredFields)),
                          "additionalProperties" := JBool(false)]);
    contract := JObj(map["type" := JStr("json_schema"),
                         "json_schema" := JObj(map[
                           "name" := JStr("schema_response"),
                           "schema" := JObj(map[
                             "type" := JStr("object"),
                             "properties" := JObj(map["data_fields" := JObj(map["type" := JStr("array"), "items" := items])]),
                             "required" := JArr([JStr("data_fields")]),
                             "additionalProperties" := JBool(false)]),
                           "strict" := JBool(true)])]);
  }

  /** The value reached by following `path` through nested objects. */
  function AtPath(j: Json, path: seq<string>): Option<Json>
    decreases |path|
  {
    if |path| == 0 then Some(j)
    else if j.JObj? && path[0] in j.members then AtPath(j.members[path[0]], path[1..])
    else None
  }

  /** The `properties` keys are exactly the schema's field names. */
  lemma {:induction false} PropertiesKeys(fields: seq<SchemaField>)
    ensures PropertiesOf(fields).Keys == NameSet(fields)
    decreases |fields|
  {
    if |fields| > 0 {
      var n := |fields| - 1;
      PropertiesKeys(fields[..n]);
      assert NameSet(fields) == NameSet(fields[..n]) + {fields[n].name} by {
        forall k | k in NameSet(fields) ensures k in NameSet(fields[..n]) + {fields[n].name} {
          var i :| 0 <= i < |fields| && fields[i].name == k;
          if i < n { assert fields[..n][i] == fields[i]; }
        }
        forall k | k in NameSet(fields[..n]) ensures k in NameSet(fields) {
          var i :| 0 <= i < n && fields[..n][i].name == k;
          assert fields[i].name == k;
        }
      }
    }
  }

  /** The entry of a name is written by the last field of that name. */
  lemma {:induction false} PropertiesLastWins(fields: seq<SchemaField>, j: nat)
    requires j < |fields|
    requires forall l :: j < l < |fields| ==> fields[l].name != fields[j].name
    ensures fields[j].name in PropertiesOf(fields)
    ensures PropertiesOf(fields)[fields[j].name] == TypeEntry(fields[j])
    decreases |fields|
  {
    var n := |fields| - 1;
    if j < n {
      var init := fields[..n];
      assert forall l :: j < l < |init| ==> init[l].name != init[j].name;
      PropertiesLastWins(init, j);
    }
  }

  /** With unique names, `properties` sends each field's name to its own type entry. */
  lemma PropertiesOfUnique(fields: seq<SchemaField>, i: nat)
    requires UniqueNames(fields)
    requires i < |fields|
    ensures fields[i].name in PropertiesOf(fields)
    ensures PropertiesOf(fields)[fields[i].name] == TypeEntry(fields[i])
  {
    PropertiesLastWins(fields, i);
  }

  /** With unique names, `properties` has one entry per field, as `required` does. */
  lemma {:induction false} PropertiesCount(fields: seq<SchemaField>)
    requires UniqueNames(fields)
    ensures |PropertiesOf(fields)| == |fields| == |Names(fields)|
    decreases |fields|
  {
    if |fields| > 0 {
      var n := |fields| - 1;
      var init := fields[..n];
      assert UniqueNames(init);
      PropertiesCount(init);
      PropertiesKeys(init);
      assert fields[n].name !in NameSet(init);
      assert fields[n].name !in PropertiesOf(init);
    }
  }

  /** Following a path and then another is following their concatenation. */
  lemma {:induction false} AtPathConcat(j: Json, p: seq<string>, q: seq<string>)
    requires AtPath(j, p).Some?
    ensures AtPath(j, p + q) == AtPath(AtPath(j, p).value, q)
    decreases |p|
  {
    if |p| > 0 {
      assert (p + q)[0] == p[0] && (p + q)[1..] == p[1..] + q;
      AtPathConcat(j.members[p[0]], p[1..], q);
    } else {
      assert p + q == q;
    }
  }

  /** The outer `response_format_json` level: a strict `json_schema` named
      `schema_response` around the schema object. */
  lemma EnvelopeShape(schema: ResponseSchema)
    ensures AtPath(Contract(schema), ["type"]) == Some(JStr("json_schema"))
    ensures AtPath(Contract(schema), ["json_schema", "name"]) == Some(JStr("schema_response"))
    ensures AtPath(Contract(schema), ["json_schema", "strict"]) == Some(JBool(true))
    ensures AtPath(Contract(schema), ["json_schema", "schema"]) == Some(RecordList(schema.dataFields))
  {
    var js := Contract(schema).members["json_schema"];
    assert ["json_schema", "name"][1..] == ["name"];
    assert ["json_schema", "strict"][1..] == ["strict"];
    assert ["json_schema", "schema"][1..] == ["schema"];
    assert AtPath(js, ["schema"]) == Some(RecordList(schema.dataFields));
  }

  /** The schema object: closed, requiring exactly `data_fields`, an array of
      item objects. */
  lemma RecordListShape(fields: seq<SchemaField>)
    ensures AtPath(RecordList(fields), ["type"]) == Some(JStr("object"))
    ensures AtPath(RecordList(fields), ["required"]) == Some(JArr([JStr("data_fields")]))
    ensures AtPath(RecordList(fields), ["additionalProperties"]) == Some(JBool(false))
    ensures AtPath(RecordList(fields), ["properties"]).Some?
    ensures AtPath(RecordList(fields), ["properties"]).value.JObj?
    ensures AtPath(RecordList(fields), ["properties"]).value.members.Keys == {"data_fields"}
    ensures AtPath(RecordList(fields), ["properties", "data_fields", "type"]) == Some(JStr("array"))
    ensures AtPath(RecordList(fields), ["properties", "data_fields", "items"]) == Some(ItemShape(fields))
  {
    var props := RecordList(fields).members["properties"];
    var df := props.members["data_fields"];
    assert ["properties", "data_fields", "type"][1..] == ["data_fields", "type"];
    assert ["data_fields", "type"][1..] == ["type"];
    assert AtPath(df, ["type"]) == Some(JStr("array"));
    assert ["properties", "data_fields", "items"][1..] == ["data_fields", "items"];
    assert ["data_fields", "items"][1..] == ["items"];
    assert AtPath(df, ["items"]) == Some(ItemShape(fields));
  }

  /** One item object: closed, requiring the names in schema order, with the
      `properties` dictionary the loop builds. */
  lemma ItemObjectShape(fields: seq<SchemaField>)
    ensures AtPath(ItemShape(fields), ["type"]) == Some(JStr("object"))
    ensures AtPath(ItemShape(fields), ["additionalProperties"]) == Some(JBool(false))
    ensures AtPath(ItemShape(fields), ["required"]) == Some(JArr(JStrs(Names(fields))))
    ensures AtPath(ItemShape(fields), ["properties"]) == Some(JObj(PropertiesOf(fields)))
  {
  }

  /** Every compiled contract has the same strict envelope; only the item
      object depends on the schema. */
  lemma ContractShape(schema: ResponseSchema)
    ensures AtPath(Contract(schema), ["json_schema", "schema", "required"]) == Some(JArr([JStr("data_fields")]))
    ensures AtPath(Contract(schema), ["json_schema", "schema", "additionalProperties"]) == Some(JBool(false))
    ensures AtPath(Contract(schema), ["json_schema", "schema", "properties", "data_fields", "type"]) == Some(JStr("array"))
    ensures AtPath(Contract(schema), ["json_schema", "schema", "properties", "data_fields", "items"]) == Some(ItemShape(schema.dataFields))
  {
    var fields := schema.dataFields;
    EnvelopeShape(schema);
    RecordListShape(fields);
    var top := ["json_schema", "schema"];
    AtPathConcat(Contract(schema), top, ["required"]);
    assert top + ["required"] == ["json_schema", "schema", "required"];
    AtPathConcat(Contract(schema), top, ["additionalProperties"]);
    assert top + ["additionalProperties"] == ["json_schema", "schema", "additionalProperties"];
    AtPathConcat(Contract(schema), top, ["properties", "data_fields", "type"]);
    assert top + ["properties", "data_fields", "type"] == ["json_schema", "schema", "properties", "data_fields", "type"];
    AtPathConcat(Contract(schema), top, ["properties", "data_fields", "items"]);
    assert top + ["properties", "data_fields", "items"] == ["json_schema", "schema", "properties", "data_fields", "items"];
  }

  lemma JStrsInjective(a: seq<string>, b: seq<string>)
    requires JStrs(a) == JStrs(b)
    ensures a == b
  {
    assert |a| == |JStrs(a)|;
    assert forall i :: 0 <= i < |a| ==> JStrs(a)[i] == JStr(a[i]) && JStrs(b)[i] == JStr(b[i]);
  }

  /** Two schemas compile to the same contract exactly when they have the same
      names in the same order and the same `properties` dictionary; the field
      descriptions and the confirmation message never reach the contract. */
  lemma ContractEquality(s1: ResponseSchema, s2: ResponseSchema)
    ensures Contract(s1) == Contract(s2) <==>
      Names(s1.dataFields) == Names(s2.dataFields) && PropertiesOf(s1.dataFields) == PropertiesOf(s2.dataFields)
  {
    if Contract(s1) == Contract(s2) {
      var i1 := Contract(s1).members["json_schema"].members["schema"].members["properties"].members["data_fields"].members["items"];
      var i2 := Contract(s2).members["json_schema"].members["schema"].members["properties"].members["data_fields"].members["items"];
      assert i1 == ItemShape(s1.dataFields) && i2 == ItemShape(s2.dataFields);
      assert i1.members["required"] == i2.members["required"];
      JStrsInjective(Names(s1.dataFields), Names(s2.dataFields));
      assert i1.members["properties"] == i2.members["properties"];
    }
  }

  /** Pointwise equality of name and lower-cased type. */
  predicate SameNamesAndTypes(a: seq<SchemaField>, b: seq<SchemaField>) {
    |a| == |b| && forall i :: 0 <= i < |a| ==> a[i].name == b[i].name && Lower(a[i].dataType) == Lower(b[i].dataType)
  }

  lemma {:induction false} PropertiesOfSameNamesAndTypes(a: seq<SchemaField>, b: seq<SchemaField>)
    requires SameNamesAndTypes(a, b)
    ensures PropertiesOf(a) == PropertiesOf(b)
    decreases |a|
  {
    if |a| > 0 {
      var n := |a| - 1;
      assert SameNamesAndTypes(a[..n], b[..n]);
      PropertiesOfSameNamesAndTypes(a[..n], b[..n]);
      assert TypeEntry(a[n]) == TypeEntry(b[n]);
    }
  }

  /** Schemas that differ only in descriptions, in the letter case of their
      types or in their confirmation message compile to the same contract. */
  lemma ContractIgnoresDescriptions(s1: ResponseSchema, s2: ResponseSchema)
    requires SameNamesAndTypes(s1.dataFields, s2.dataFields)
    ensures Contract(s1) == Contract(s2)
  {
    PropertiesOfSameNamesAndTypes(s1.dataFields, s2.dataFields);
    assert Names(s1.dataFields) == Names(s2.dataFields);
    ContractEquality(s1, s2);
  }

  // ---------------------------------------------------------------------------
  // Running a schema: refusal check and decoding (model.py:214-246)
  // ---------------------------------------------------------------------------

  /** What reaches the completion service for one extraction: the goal prompt,
      the document and the compiled contract. */
  datatype Request = Request(prompt: string, contents: string, contract: Json)

  /** The completion service's answer: a call that raised, or a message with
      its `refusal` (None when the service did not refuse) and its content,
      the already-parsed `data_fields` items, each a map from field name to an
      opaque scalar of type S. */
  datatype Completion<S> = Failed | Answer(refusal: Option<string>, items: seq<map<string, S>>)

  /** `str(item.get(name, ''))`: the printed scalar, or '' for a missing key. */
  function ValueOf<S>(item: map<string, S>, name: string, str: S -> string): string {
    if name in item then str(item[name]) else ""
  }

  function DecodeField<S>(field: SchemaField, item: map<string, S>, str: S -> string): SchemaFieldResult {
    SchemaFieldResult(field.name, field.description, field.dataType, Some(ValueOf(item, field.name, str)))
  }

  /** One record per raw item: the schema's fields in schema order. */
  function DecodeItem<S>(schema: ResponseSchema, item: map<string, S>, str: S -> string): ResponseSchemaResults {
    ResponseSchemaResults(
      seq(|schema.dataFields|, i requires 0 <= i < |schema.dataFields| => DecodeField(schema.dataFields[i], item, str)),
      schema.confirmationMessage)
  }

  /** The comprehension at model.py:232-246. */
  function Decode<S>(schema: ResponseSchema, items: seq<map<string, S>>, str: S -> string): seq<ResponseSchemaResults> {
    seq(|items|, k requires 0 <= k < |items| => DecodeItem(schema, items[k], str))
  }

  /** The request `run_schema` sends for a schema. */
  function RequestFor(prompt: string, contents: string, schema: ResponseSchema): Request {
    Request(prompt, contents, Contract(schema))
  }

  /** `run_schema` (model.py:214-246) around an abstract service. A missing
      schema fails in `create_dynamic_model` before anything is sent; a failed
      call raises; a non-empty refusal raises its text; otherwise (no refusal,
      or an empty one) the parsed items are decoded. */
  function RunSchema<S>(prompt: string, contents: string, schema: Option<ResponseSchema>,
                        service: Request -> Completion<S>, str: S -> string): (r: Result<seq<ResponseSchemaResults>>)
    ensures schema.None? ==> r == Failure(AttributeMissing("data_fields"))
    ensures schema.Some? && service(RequestFor(prompt, contents, schema.value)).Failed? ==> r == Failure(ServiceFailed)
    ensures r.Success? <==>
      schema.Some? && service(RequestFor(prompt, contents, schema.value)).Answer?
      && !Truthy(service(RequestFor(prompt, contents, schema.value)).refusal)
    ensures (schema.Some? && service(RequestFor(prompt, contents, schema.value)).Answer?
             && Truthy(service(RequestFor(prompt, contents, schema.value)).refusal)) ==>
      r == Failure(Declined(service(RequestFor(prompt, contents, schema.value)).refusal.value))
    ensures r.Success? ==>
      r.value == Decode(schema.value, service(RequestFor(prompt, contents, schema.value)).items, str)
      && |r.value| == |service(RequestFor(prompt, contents, schema.value)).items|
  {
    match schema
    case None => Failure(AttributeMissing("data_fields"))
    case Some(s) =>
      match service(RequestFor(prompt, contents, s))
      case Failed => Failure(ServiceFailed)
      case Answer(refusal, items) =>
        if Truthy(refusal) then Failure(Declined(refusal.value))
        else Success(Decode(s, items, str))
  }

  /** One record per item, in item order; each carries the schema's message
      and the schema's fields in schema order, valued from its own item. */
  lemma DecodeShape<S>(schema: ResponseSchema, items: seq<map<string, S>>, str: S -> string, k: nat, i: nat)
    requires k < |items| && i < |schema.dataFields|
    ensures |Decode(schema, items, str)| == |items|
    ensures Decode(schema, items, str)[k].confirmationMessage == schema.confirmationMessage
    ensures |Decode(schema, items, str)[k].dataFields| == |schema.dataFields|
    ensures Definition(Decode(schema, items, str)[k].dataFields[i]) == schema.dataFields[i]
    ensures Decode(schema, items, str)[k].dataFields[i].value ==
      Some(if schema.dataFields[i].name in items[k] then str(items[k][schema.dataFields[i].name]) else "")
  {
  }

  /** Stripping the values of a decoded record gives back the schema. */
  lemma DecodedDefinitions<S>(schema: ResponseSchema, item: map<string, S>, str: S -> string)
    ensures Definitions(DecodeItem(schema, item, str).dataFields) == schema.dataFields
    ensures ResultsToDict(DecodeItem(schema, item, str)) == SchemaToDict(schema)
  {
    var r := DecodeItem(schema, item, str);
    assert Definitions(r.dataFields) == schema.dataFields;
    ResultsToDictIsSchemaToDict(r);
  }

  /** Keys of an item outside the schema do not matter. */
  lemma DecodeItemIgnoresExtraKeys<S>(schema: ResponseSchema, a: map<string, S>, b: map<string, S>, str: S -> string)
    requires forall f :: f in schema.dataFields ==> (f.name in a <==> f.name in b)
    requires forall f :: f in schema.dataFields && f.name in a ==> a[f.name] == b[f.name]
    ensures DecodeItem(schema, a, str) == DecodeItem(schema, b, str)
  {
    assert forall i :: 0 <= i < |schema.dataFields| ==> schema.dataFields[i] in schema.dataFields;
  }

  /** Decoding is item by item: it distributes over concatenation. */
  lemma DecodeAppend<S>(schema: ResponseSchema, xs: seq<map<string, S>>, ys: seq<map<string, S>>, str: S -> string)
    ensures Decode(schema, xs + ys, str) == Decode(schema, xs, str) + Decode(schema, ys, str)
  {
  }

  /** The refusal test alone decides: a non-empty refusal raises its text
      whatever the content holds, while an empty refusal is treated exactly
      like no refusal and the content is decoded. */
  lemma RefusalCheck<S>(prompt: string, contents: string, schema: ResponseSchema, message: string,
                        xs: seq<map<string, S>>, ys: seq<map<string, S>>, str: S -> string)
    requires message != ""
    ensures RunSchema(prompt, contents, Some(schema), (q: Request) => Answer(Some(message), xs), str)
         == RunSchema(prompt, contents, Some(schema), (q: Request) => Answer(Some(message), ys), str)
    ensures RunSchema(prompt, contents, Some(schema), (q: Request) => Answer(Some(message), xs), str)
         == Failure(Declined(message))
    ensures RunSchema(prompt, contents, Some(schema), (q: Request) => Answer(Some(""), xs), str)
         == RunSchema(prompt, contents, Some(schema), (q: Request) => Answer(None, xs), str)
    ensures RunSchema(prompt, contents, Some(schema), (q: Request) => Answer(None, xs), str)
         == Success(Decode(schema, xs, str))
  {
  }
}
