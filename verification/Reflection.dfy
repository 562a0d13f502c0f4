/** Block descriptors as the reflection helper writes them to its pipe and the server reads them back. */
module Reflection {
  import opened Common
  import opened JsonValues

  type Int32 = n: int | IsInt32(n)

  datatype CardinalityKind = Fixed | Dynamic

  datatype PortDescriptor = PortDescriptor(
    name: string, kind: string, cardinality: CardinalityKind,
    currentCount: Option<Int32>, renderCount: Option<Int32>, minCount: Option<Int32>, maxCount: Option<Int32>,
    sizeParameter: Option<string>, handleNameTemplate: Option<string>)

  datatype ParameterDefault =
    | NoDefault
    | BoolDefault(flag: bool)
    | IntDefault(number: Int32)
    | DoubleDefault(amount: real)
    | StringDefault(text: string)

  datatype ParameterDescriptor = ParameterDescriptor(
    name: string, kind: string, required: bool, defaultValue: ParameterDefault, summary: string,
    runtimeMutability: Option<string>, valueKind: Option<string>, enumChoices: Option<seq<string>>,
    enumType: Option<string>, enumLabels: map<string, string>, enumSource: Option<string>,
    uiHint: Option<string>, allowCustomValue: Option<bool>)

  datatype BlockDescriptor = BlockDescriptor(
    id: string, canonicalType: Option<string>, name: string, category: string, summary: string,
    inputs: seq<PortDescriptor>, outputs: seq<PortDescriptor>, parameters: seq<ParameterDescriptor>)

  datatype ReflectionError = MalformedPayload | UnsupportedDefault

  type Fields = map<string, Json>

  // ----- writing -----

  /** An absent value leaves no key behind. */
  function With(fields: Fields, key: string, value: Option<Json>): Fields {
    match value case Some(json) => fields[key := json] case None => fields
  }

  function Get(fields: Fields, key: string): Option<Json> {
    if key in fields then Some(fields[key]) else None
  }

  /** An object put together field by field. */
  function ObjectOf(entries: seq<(string, Option<Json>)>): Fields {
    if entries == [] then map[]
    else With(ObjectOf(entries[..|entries| - 1]), entries[|entries| - 1].0, entries[|entries| - 1].1)
  }

  predicate KeysDiffer(entries: seq<(string, Option<Json>)>) {
    forall i, j :: 0 <= i < j < |entries| ==> entries[i].0 != entries[j].0
  }

  lemma {:induction false} NoOtherKeys(entries: seq<(string, Option<Json>)>, key: string)
    requires forall i :: 0 <= i < |entries| ==> entries[i].0 != key
    ensures Get(ObjectOf(entries), key) == None
  {
    if entries != [] { NoOtherKeys(entries[..|entries| - 1], key); }
  }

  lemma {:induction false} FieldReadsBack(entries: seq<(string, Option<Json>)>, i: nat)
    requires KeysDiffer(entries) && i < |entries|
    ensures Get(ObjectOf(entries), entries[i].0) == entries[i].1
  {
    var front := entries[..|entries| - 1];
    if i < |front| { FieldReadsBack(front, i); } else { NoOtherKeys(front, entries[i].0); }
  }

  /** Every field of the object is found under its key. */
  lemma FieldsReadBack(entries: seq<(string, Option<Json>)>)
    requires KeysDiffer(entries)
    ensures forall i :: 0 <= i < |entries| ==> Get(ObjectOf(entries), entries[i].0) == entries[i].1
  {
    forall i | 0 <= i < |entries| ensures Get(ObjectOf(entries), entries[i].0) == entries[i].1 {
      FieldReadsBack(entries, i);
    }
  }

  function IntJson(value: Option<Int32>): Option<Json> {
    match value case Some(n) => Some(JInt(n)) case None => None
  }

  function BoolJson(value: Option<bool>): Option<Json> {
    match value case Some(flag) => Some(JBool(flag)) case None => None
  }

  function TextJson(value: Option<string>): Option<Json> {
    match value case Some(text) => Some(JString(text)) case None => None
  }

  function ChoicesJson(choices: Option<seq<string>>): Option<Json> {
    match choices
    case Some(texts) => Some(JArray(seq(|texts|, i requires 0 <= i < |texts| => JString(texts[i]))))
    case None => None
  }

  function LabelsJson(labels: map<string, string>): Option<Json> {
    if |labels| == 0 then None else Some(JObject(map key | key in labels :: JString(labels[key])))
  }

  function PortFields(port: PortDescriptor): seq<(string, Option<Json>)> {
    [("name", Some(JString(port.name))),
     ("type", Some(JString(port.kind))),
     ("cardinality_kind", Some(JString(if port.cardinality.Fixed? then "fixed" else "dynamic"))),
     ("current_port_count", IntJson(port.currentCount)),
     ("render_port_count", IntJson(port.renderCount)),
     ("min_port_count", IntJson(port.minCount)),
     ("max_port_count", IntJson(port.maxCount)),
     ("size_parameter", TextJson(port.sizeParameter)),
     ("handle_name_template", TextJson(port.handleNameTemplate))]
  }

  function PortToJson(port: PortDescriptor): Json {
    JObject(ObjectOf(PortFields(port)))
  }

  function DefaultToJson(value: ParameterDefault): Json {
    match value
    case NoDefault => JNull
    case BoolDefault(flag) => JBool(flag)
    case IntDefault(number) => JInt(number)
    case DoubleDefault(amount) => JFloat(amount)
    case StringDefault(text) => JString(text)
  }

  function ParameterFields(parameter: ParameterDescriptor): seq<(string, Option<Json>)> {
    [("name", Some(JString(parameter.name))),
     ("type", Some(JString(parameter.kind))),
     ("required", Some(JBool(parameter.required))),
     ("default_value", Some(DefaultToJson(parameter.defaultValue))),
     ("summary", Some(JString(parameter.summary))),
     ("runtime_mutability", TextJson(parameter.runtimeMutability)),
     ("value_kind", TextJson(parameter.valueKind)),
     ("enum_choices", ChoicesJson(parameter.enumChoices)),
     ("enum_type", TextJson(parameter.enumType)),
     ("enum_labels", LabelsJson(parameter.enumLabels)),
     ("enum_source", TextJson(parameter.enumSource)),
     ("ui_hint", TextJson(parameter.uiHint)),
     ("allow_custom_value", BoolJson(parameter.allowCustomValue))]
  }

  function ParameterToJson(parameter: ParameterDescriptor): Json {
    JObject(ObjectOf(ParameterFields(parameter)))
  }

  function Each<T>(items: seq<T>, write: T -> Json): seq<Json> {
    seq(|items|, i requires 0 <= i < |items| => write(items[i]))
  }

  function BlockFields(block: BlockDescriptor): seq<(string, Option<Json>)> {
    [("id", Some(JString(block.id))),
     ("name", Some(JString(block.name))),
     ("category", Some(JString(block.category))),
     ("summary", Some(JString(block.summary))),
     ("inputs", Some(JArray(Each(block.inputs, PortToJson)))),
     ("outputs", Some(JArray(Each(block.outputs, PortToJson)))),
     ("parameters", Some(JArray(Each(block.parameters, ParameterToJson)))),
     ("canonical_type", TextJson(block.canonicalType))]
  }

  function BlockToJson(block: BlockDescriptor): Json {
    JObject(ObjectOf(BlockFields(block)))
  }

  method WriteBlock(block: BlockDescriptor) returns (json: Json)
    ensures json == BlockToJson(block)
  {
    var inputs: seq<Json> := [];
    for i := 0 to |block.inputs|
      invariant inputs == Each(block.inputs[..i], PortToJson)
    {
      inputs := inputs + [PortToJson(block.inputs[i])];
    }
    var outputs: seq<Json> := [];
    for i := 0 to |block.outputs|
      invariant outputs == Each(block.outputs[..i], PortToJson)
    {
      outputs := outputs + [PortToJson(block.outputs[i])];
    }
    var parameters: seq<Json> := [];
    for i := 0 to |block.parameters|
      invariant parameters == Each(block.parameters[..i], ParameterToJson)
    {
      parameters := parameters + [ParameterToJson(block.parameters[i])];
    }
    assert block.inputs[..|block.inputs|] == block.inputs;
    assert block.outputs[..|block.outputs|] == block.outputs;
    assert block.parameters[..|block.parameters|] == block.parameters;
    return JObject(ObjectOf([("id", Some(JString(block.id))),
                             ("name", Some(JString(block.name))),
                             ("category", Some(JString(block.category))),
                             ("summary", Some(JString(block.summary))),
                             ("inputs", Some(JArray(inputs))),
                             ("outputs", Some(JArray(outputs))),
                             ("parameters", Some(JArray(parameters))),
                             ("canonical_type", TextJson(block.canonicalType))]));
  }

  // ----- reading -----

  /** The value under a key, of whatever kind; absent also when the document is no object. */
  function At(json: Json, key: string): Option<Json> {
    if json.JObject? then Get(json.fields, key) else None
  }

  /** Optional fields of the wrong kind are ignored. */
  function TextAt(json: Json, key: string): Option<string> {
    match At(json, key) case Some(JString(text)) => Some(text) case _ => None
  }

  function IntAt(json: Json, key: string): Option<Int32> {
    match At(json, key) case Some(JInt(number)) => Some(ToInt32(number)) case _ => None
  }

  function BoolAt(json: Json, key: string): Option<bool> {
    match At(json, key) case Some(JBool(flag)) => Some(flag) case _ => None
  }

  function ParseCardinality(text: Option<string>): CardinalityKind {
    if text == Some("dynamic") then Dynamic else Fixed
  }

  function ParsePort(json: Json): Result<PortDescriptor, ReflectionError> {
    match (TextAt(json, "name"), TextAt(json, "type"))
    case (Some(name), Some(kind)) =>
      Ok(PortDescriptor(name, kind, ParseCardinality(TextAt(json, "cardinality_kind")),
                        IntAt(json, "current_port_count"), IntAt(json, "render_port_count"),
                        IntAt(json, "min_port_count"), IntAt(json, "max_port_count"),
                        TextAt(json, "size_parameter"), TextAt(json, "handle_name_template")))
    case _ => Err(MalformedPayload)
  }

  function ParseDefault(json: Json): Result<ParameterDefault, ReflectionError> {
    match json
    case JNull => Ok(NoDefault)
    case JBool(flag) => Ok(BoolDefault(flag))
    case JInt(number) => Ok(IntDefault(ToInt32(number)))
    case JFloat(amount) => Ok(DoubleDefault(amount))
    case JString(text) => Ok(StringDefault(text))
    case _ => Err(UnsupportedDefault)
  }

  /** An array must hold strings only; anything that is no array is ignored. */
  function ParseChoices(json: Option<Json>): Result<Option<seq<string>>, ReflectionError> {
    match json
    case Some(JArray(items)) =>
      if forall i :: 0 <= i < |items| ==> items[i].JString? then
        Ok(Some(seq(|items|, i requires 0 <= i < |items| && items[i].JString? => items[i].text)))
      else Err(MalformedPayload)
    case _ => Ok(None)
  }

  function ParseLabels(json: Option<Json>): Result<map<string, string>, ReflectionError> {
    match json
    case Some(JObject(fields)) =>
      if forall key :: key in fields ==> fields[key].JString? then Ok(map key | key in fields :: fields[key].text)
      else Err(MalformedPayload)
    case _ => Ok(map[])
  }

  function ParseParameter(json: Json): Result<ParameterDescriptor, ReflectionError> {
    match (TextAt(json, "name"), TextAt(json, "type"), BoolAt(json, "required"), At(json, "default_value"), TextAt(json, "summary"))
    case (Some(name), Some(kind), Some(required), Some(default), Some(summary)) =>
      (match (ParseDefault(default), ParseChoices(At(json, "enum_choices")), ParseLabels(At(json, "enum_labels")))
       case (Ok(defaultValue), Ok(choices), Ok(labels)) =>
         Ok(ParameterDescriptor(name, kind, required, defaultValue, summary,
                                TextAt(json, "runtime_mutability"), TextAt(json, "value_kind"), choices,
                                TextAt(json, "enum_type"), labels, TextAt(json, "enum_source"),
                                TextAt(json, "ui_hint"), BoolAt(json, "allow_custom_value")))
       case (Err(error), _, _) => Err(error)
       case _ => Err(MalformedPayload))
    case _ => Err(MalformedPayload)
  }

  /** Reading a list from the front; the first bad item decides. */
  function ParseAll<T>(items: seq<Json>, parse: Json -> Result<T, ReflectionError>): Result<seq<T>, ReflectionError> {
    if items == [] then Ok([])
    else
      match ParseAll(items[..|items| - 1], parse)
      case Err(error) => Err(error)
      case Ok(parsed) =>
        match parse(items[|items| - 1])
        case Ok(last) => Ok(parsed + [last])
        case Err(error) => Err(error)
  }

  /** The values of an object in the order of their keys, which is how the JSON library iterates over it. */
  function ValuesInOrder(fields: Fields): seq<Json> {
    var keys := InOrder(fields.Keys);
    seq(|keys|, i requires 0 <= i < |keys| => assert keys[i] in Elements(keys); fields[keys[i]])
  }

  /** The items a loop over the value visits: none for null, and a scalar itself once. */
  function ItemsOf(json: Option<Json>): Result<seq<Json>, ReflectionError> {
    match json
    case Some(JArray(items)) => Ok(items)
    case Some(JObject(fields)) => Ok(ValuesInOrder(fields))
    case Some(JNull) => Ok([])
    case Some(scalar) => Ok([scalar])
    case None => Err(MalformedPayload)
  }

  function ParseList<T>(json: Option<Json>, parse: Json -> Result<T, ReflectionError>): Result<seq<T>, ReflectionError> {
    match ItemsOf(json) case Ok(items) => ParseAll(items, parse) case Err(error) => Err(error)
  }

  /** An empty canonical type reads as an absent one. */
  function Canonical(text: Option<string>): Option<string> {
    if text == Some("") then None else text
  }

  function ParseBlock(json: Json): Result<BlockDescriptor, ReflectionError> {
    match (TextAt(json, "id"), TextAt(json, "name"), TextAt(json, "category"), TextAt(json, "summary"))
    case (Some(id), Some(name), Some(category), Some(summary)) =>
      (match (ParseList(At(json, "inputs"), ParsePort), ParseList(At(json, "outputs"), ParsePort),
              ParseList(At(json, "parameters"), ParseParameter))
       case (Err(error), _, _) => Err(error)
       case (_, Err(error), _) => Err(error)
       case (_, _, Err(error)) => Err(error)
       case (Ok(inputs), Ok(outputs), Ok(parameters)) =>
         Ok(BlockDescriptor(id, Canonical(TextAt(json, "canonical_type")), name, category, summary, inputs, outputs, parameters)))
    case _ => Err(MalformedPayload)
  }

  lemma {:induction false} ErrorStays<T>(items: seq<Json>, parse: Json -> Result<T, ReflectionError>, i: nat)
    requires i <= |items| && ParseAll(items[..i], parse).Err?
    ensures ParseAll(items, parse) == ParseAll(items[..i], parse)
    decreases |items| - i
  {
    if i == |items| {
      assert items[..i] == items;
    } else {
      assert items[..i + 1][..i] == items[..i];
      ErrorStays(items, parse, i + 1);
    }
  }

  method ReadPorts(items: seq<Json>) returns (ports: Result<seq<PortDescriptor>, ReflectionError>)
    ensures ports == ParseAll(items, ParsePort)
  {
    var read: seq<PortDescriptor> := [];
    for i := 0 to |items|
      invariant ParseAll(items[..i], ParsePort) == Ok(read)
    {
      assert items[..i + 1][..i] == items[..i];
      match ParsePort(items[i]) {
        case Ok(port) => read := read + [port];
        case Err(error) =>
          ErrorStays(items, ParsePort, i + 1);
          return Err(error);
      }
    }
    assert items[..|items|] == items;
    return Ok(read);
  }

  method ReadParameters(items: seq<Json>) returns (parameters: Result<seq<ParameterDescriptor>, ReflectionError>)
    ensures parameters == ParseAll(items, ParseParameter)
  {
    var read: seq<ParameterDescriptor> := [];
    for i := 0 to |items|
      invariant ParseAll(items[..i], ParseParameter) == Ok(read)
    {
      assert items[..i + 1][..i] == items[..i];
      match ParseParameter(items[i]) {
        case Ok(parameter) => read := read + [parameter];
        case Err(error) =>
          ErrorStays(items, ParseParameter, i + 1);
          return Err(error);
      }
    }
    assert items[..|items|] == items;
    return Ok(read);
  }

  method ReadBlock(json: Json) returns (block: Result<BlockDescriptor, ReflectionError>)
    ensures block == ParseBlock(json)
  {
    hide ParseAll, TextAt;
    var id, name := TextAt(json, "id"), TextAt(json, "name");
    var category, summary := TextAt(json, "category"), TextAt(json, "summary");
    if id.None? || name.None? || category.None? || summary.None? { return Err(MalformedPayload); }
    var canonicalType := TextAt(json, "canonical_type");
    if canonicalType == Some("") { canonicalType := None; }
    var inputItems := ItemsOf(At(json, "inputs"));
    if inputItems.Err? { return Err(inputItems.error); }
    var inputs := ReadPorts(inputItems.value);
    if inputs.Err? { return Err(inputs.error); }
    var outputItems := ItemsOf(At(json, "outputs"));
    if outputItems.Err? { return Err(outputItems.error); }
    var outputs := ReadPorts(outputItems.value);
    if outputs.Err? { return Err(outputs.error); }
    var parameterItems := ItemsOf(At(json, "parameters"));
    if parameterItems.Err? { return Err(parameterItems.error); }
    var parameters := ReadParameters(parameterItems.value);
    if parameters.Err? { return Err(parameters.error); }
    return Ok(BlockDescriptor(id.value, canonicalType, name.value, category.value, summary.value,
                              inputs.value, outputs.value, parameters.value));
  }

  // ----- round trips -----

  /** The document holds these fields, each under its key. */
  predicate FieldsStand(json: Json, entries: seq<(string, Option<Json>)>) {
    forall i :: 0 <= i < |entries| ==> At(json, entries[i].0) == entries[i].1
  }

  lemma OptionalText(json: Json, key: string, value: Option<string>)
    requires At(json, key) == TextJson(value)
    ensures TextAt(json, key) == value
  {
  }

  lemma OptionalInt(json: Json, key: string, value: Option<Int32>)
    requires At(json, key) == IntJson(value)
    ensures IntAt(json, key) == value
  {
  }

  lemma OptionalBool(json: Json, key: string, value: Option<bool>)
    requires At(json, key) == BoolJson(value)
    ensures BoolAt(json, key) == value
  {
  }

  lemma PortKeysDiffer(port: PortDescriptor)
    ensures KeysDiffer(PortFields(port))
  {
  }

  lemma PortReadsBack(port: PortDescriptor)
    ensures ParsePort(PortToJson(port)) == Ok(port)
  {
    var json, entries := PortToJson(port), PortFields(port);
    PortKeysDiffer(port);
    FieldsReadBack(entries);
    assert FieldsStand(json, entries);
    hide At, Get, ObjectOf, TextAt, IntAt, TextJson, IntJson, KeysDiffer;
    PortTextsReadBack(port, json);
    OptionalInt(json, entries[3].0, port.currentCount);
    OptionalInt(json, entries[4].0, port.renderCount);
    OptionalInt(json, entries[5].0, port.minCount);
    OptionalInt(json, entries[6].0, port.maxCount);
  }

  lemma PortTextsReadBack(port: PortDescriptor, json: Json)
    requires FieldsStand(json, PortFields(port))
    ensures TextAt(json, "name") == Some(port.name) && TextAt(json, "type") == Some(port.kind)
    ensures ParseCardinality(TextAt(json, "cardinality_kind")) == port.cardinality
    ensures TextAt(json, "size_parameter") == port.sizeParameter
    ensures TextAt(json, "handle_name_template") == port.handleNameTemplate
  {
    var entries := PortFields(port);
    hide At, TextAt, IntJson;
    OptionalText(json, entries[0].0, Some(port.name));
    OptionalText(json, entries[1].0, Some(port.kind));
    OptionalText(json, entries[2].0, Some(if port.cardinality.Fixed? then "fixed" else "dynamic"));
    OptionalText(json, entries[7].0, port.sizeParameter);
    OptionalText(json, entries[8].0, port.handleNameTemplate);
  }

  lemma ChoicesReadBack(choices: Option<seq<string>>)
    ensures ParseChoices(ChoicesJson(choices)) == Ok(choices)
  {
    if choices.Some? { assert ParseChoices(ChoicesJson(choices)).value.value == choices.value; }
  }

  /** Labels that are left out when there are none read back as none. */
  lemma LabelsReadBack(labels: map<string, string>)
    ensures ParseLabels(LabelsJson(labels)) == Ok(labels)
  {
    assert ParseLabels(LabelsJson(labels)).value == labels;
  }

  lemma DefaultReadsBack(value: ParameterDefault)
    ensures ParseDefault(DefaultToJson(value)) == Ok(value)
  {
  }

  lemma ParameterKeysDiffer(parameter: ParameterDescriptor)
    ensures KeysDiffer(ParameterFields(parameter))
  {
  }

  lemma ParameterReadsBack(parameter: ParameterDescriptor)
    ensures ParseParameter(ParameterToJson(parameter)) == Ok(parameter)
  {
    var json, entries := ParameterToJson(parameter), ParameterFields(parameter);
    ParameterKeysDiffer(parameter);
    FieldsReadBack(entries);
    assert FieldsStand(json, entries);
    hide At, Get, ObjectOf, TextAt, BoolAt, TextJson, BoolJson, KeysDiffer, ParseDefault, ParseChoices, ParseLabels;
    ParameterTextsReadBack(parameter, json);
    OptionalBool(json, entries[2].0, Some(parameter.required));
    OptionalBool(json, entries[12].0, parameter.allowCustomValue);
    DefaultReadsBack(parameter.defaultValue);
    ChoicesReadBack(parameter.enumChoices);
    LabelsReadBack(parameter.enumLabels);
    assert At(json, entries[3].0) == entries[3].1;
    assert At(json, entries[7].0) == entries[7].1;
    assert At(json, entries[9].0) == entries[9].1;
  }

  lemma ParameterTextsReadBack(parameter: ParameterDescriptor, json: Json)
    requires FieldsStand(json, ParameterFields(parameter))
    ensures TextAt(json, "name") == Some(parameter.name) && TextAt(json, "type") == Some(parameter.kind)
    ensures TextAt(json, "summary") == Some(parameter.summary)
    ensures TextAt(json, "runtime_mutability") == parameter.runtimeMutability
    ensures TextAt(json, "value_kind") == parameter.valueKind
    ensures TextAt(json, "enum_type") == parameter.enumType && TextAt(json, "enum_source") == parameter.enumSource
    ensures TextAt(json, "ui_hint") == parameter.uiHint
  {
    var entries := ParameterFields(parameter);
    hide At, TextAt, BoolJson;
    OptionalText(json, entries[0].0, Some(parameter.name));
    OptionalText(json, entries[1].0, Some(parameter.kind));
    OptionalText(json, entries[4].0, Some(parameter.summary));
    OptionalText(json, entries[5].0, parameter.runtimeMutability);
    OptionalText(json, entries[6].0, parameter.valueKind);
    OptionalText(json, entries[8].0, parameter.enumType);
    OptionalText(json, entries[10].0, parameter.enumSource);
    OptionalText(json, entries[11].0, parameter.uiHint);
  }

  lemma {:induction false} ListReadsBack<T>(items: seq<T>, write: T -> Json, parse: Json -> Result<T, ReflectionError>)
    requires forall i :: 0 <= i < |items| ==> parse(write(items[i])) == Ok(items[i])
    ensures ParseAll(Each(items, write), parse) == Ok(items)
  {
    if items != [] {
      var front := items[..|items| - 1];
      ListReadsBack(front, write, parse);
      assert Each(items, write)[..|items| - 1] == Each(front, write);
      assert front + [items[|items| - 1]] == items;
    }
  }

  lemma BlockListsReadBack(block: BlockDescriptor)
    ensures ParseAll(Each(block.inputs, PortToJson), ParsePort) == Ok(block.inputs)
    ensures ParseAll(Each(block.outputs, PortToJson), ParsePort) == Ok(block.outputs)
    ensures ParseAll(Each(block.parameters, ParameterToJson), ParseParameter) == Ok(block.parameters)
  {
    hide ParsePort, ParseParameter, PortToJson, ParameterToJson;
    forall port: PortDescriptor ensures ParsePort(PortToJson(port)) == Ok(port) {
      PortReadsBack(port);
    }
    forall parameter: ParameterDescriptor ensures ParseParameter(ParameterToJson(parameter)) == Ok(parameter) {
      ParameterReadsBack(parameter);
    }
    ListReadsBack(block.inputs, PortToJson, ParsePort);
    ListReadsBack(block.outputs, PortToJson, ParsePort);
    ListReadsBack(block.parameters, ParameterToJson, ParseParameter);
  }

  lemma BlockKeysDiffer(block: BlockDescriptor)
    ensures KeysDiffer(BlockFields(block))
  {
  }

  lemma BlockTextsReadBack(block: BlockDescriptor, json: Json)
    requires FieldsStand(json, BlockFields(block))
    ensures TextAt(json, "id") == Some(block.id) && TextAt(json, "name") == Some(block.name)
    ensures TextAt(json, "category") == Some(block.category) && TextAt(json, "summary") == Some(block.summary)
    ensures TextAt(json, "canonical_type") == block.canonicalType
  {
    var entries := BlockFields(block);
    hide At, TextAt, Each;
    OptionalText(json, entries[0].0, Some(block.id));
    OptionalText(json, entries[1].0, Some(block.name));
    OptionalText(json, entries[2].0, Some(block.category));
    OptionalText(json, entries[3].0, Some(block.summary));
    OptionalText(json, entries[7].0, block.canonicalType);
  }

  lemma BlockListsStand(block: BlockDescriptor, json: Json)
    requires FieldsStand(json, BlockFields(block))
    ensures ParseList(At(json, "inputs"), ParsePort) == Ok(block.inputs)
    ensures ParseList(At(json, "outputs"), ParsePort) == Ok(block.outputs)
    ensures ParseList(At(json, "parameters"), ParseParameter) == Ok(block.parameters)
  {
    var entries := BlockFields(block);
    hide At, ParseAll, Each, TextJson;
    BlockListsReadBack(block);
    assert At(json, entries[4].0) == entries[4].1;
    assert At(json, entries[5].0) == entries[5].1;
    assert At(json, entries[6].0) == entries[6].1;
  }

  /** What is read back is the block that was written, but for an empty canonical type. */
  lemma BlockReadsBack(block: BlockDescriptor)
    ensures ParseBlock(BlockToJson(block)) == Ok(block.(canonicalType := Canonical(block.canonicalType)))
  {
    var json := BlockToJson(block);
    BlockKeysDiffer(block);
    FieldsReadBack(BlockFields(block));
    hide Get, ObjectOf, BlockFields, TextAt, ParseList;
    BlockTextsReadBack(block, json);
    BlockListsStand(block, json);
  }

  /** The round trip is the identity exactly when the canonical type is not the empty string. */
  lemma BlockRoundTripsIff(block: BlockDescriptor)
    ensures ParseBlock(BlockToJson(block)) == Ok(block) <==> block.canonicalType != Some("")
  {
    hide ParseBlock, BlockToJson;
    BlockReadsBack(block);
  }

  /** Whatever payload a block was read from, writing and reading it again changes nothing. */
  lemma ReadBlocksAreStable(payload: Json)
    requires ParseBlock(payload).Ok?
    ensures ParseBlock(BlockToJson(ParseBlock(payload).value)) == ParseBlock(payload)
  {
    hide ParseList, BlockToJson;
    var block := ParseBlock(payload).value;
    assert block.canonicalType != Some("");
    BlockReadsBack(block);
  }
}
