/**
 * The reflection payload key by key: which document a descriptor is written as, and which descriptor a
 * document is read as, whoever wrote it.
 */
module ReflectionDocuments {
  import opened Common
  import opened JsonValues
  import opened Reflection

  // ----- documents that are written -----

  const PORT_KEYS := {"name", "type", "cardinality_kind", "current_port_count", "render_port_count", "min_port_count",
    "max_port_count", "size_parameter", "handle_name_template"}

  const PARAMETER_KEYS := {"name", "type", "required", "default_value", "summary", "runtime_mutability", "value_kind",
    "enum_choices", "enum_type", "enum_labels", "enum_source", "ui_hint", "allow_custom_value"}

  const BLOCK_KEYS := {"id", "name", "category", "summary", "inputs", "outputs", "parameters", "canonical_type"}

  function Text(value: Option<string>): Option<Json> {
    if value.Some? then Some(JString(value.value)) else None
  }

  function Count(value: Option<Int32>): Option<Json> {
    if value.Some? then Some(JInt(value.value)) else None
  }

  function Flag(value: Option<bool>): Option<Json> {
    if value.Some? then Some(JBool(value.value)) else None
  }

  function Default(value: ParameterDefault): Json {
    match value
    case NoDefault => JNull
    case BoolDefault(flag) => JBool(flag)
    case IntDefault(number) => JInt(number)
    case DoubleDefault(amount) => JFloat(amount)
    case StringDefault(text) => JString(text)
  }

  function Choices(choices: Option<seq<string>>): Option<Json> {
    if choices.None? then None
    else Some(JArray(seq(|choices.value|, i requires 0 <= i < |choices.value| => JString(choices.value[i]))))
  }

  function Labels(labels: map<string, string>): Option<Json> {
    if labels == map[] then None else Some(JObject(map key | key in labels :: JString(labels[key])))
  }

  lemma {:induction false} NoOtherKeysStand(entries: seq<(string, Option<Json>)>, key: string)
    requires key in ObjectOf(entries)
    ensures exists i :: 0 <= i < |entries| && entries[i].0 == key
  {
    var n := |entries| - 1;
    if entries[n].0 != key { NoOtherKeysStand(entries[..n], key); }
  }

  /** A port is written as an object with these keys; an absent field leaves no key behind. */
  lemma PortDocument(port: PortDescriptor)
    ensures At(PortToJson(port), "name") == Some(JString(port.name))
    ensures At(PortToJson(port), "type") == Some(JString(port.kind))
    ensures At(PortToJson(port), "cardinality_kind")
         == Some(JString(match port.cardinality case Fixed => "fixed" case Dynamic => "dynamic"))
    ensures At(PortToJson(port), "current_port_count") == Count(port.currentCount)
    ensures At(PortToJson(port), "render_port_count") == Count(port.renderCount)
    ensures At(PortToJson(port), "min_port_count") == Count(port.minCount)
    ensures At(PortToJson(port), "max_port_count") == Count(port.maxCount)
    ensures At(PortToJson(port), "size_parameter") == Text(port.sizeParameter)
    ensures At(PortToJson(port), "handle_name_template") == Text(port.handleNameTemplate)
    ensures PortToJson(port).JObject?
    ensures forall key :: key in PortToJson(port).fields ==> key in PORT_KEYS
  {
    var entries := PortFields(port);
    PortKeysDiffer(port);
    FieldsReadBack(entries);
    forall key | key in ObjectOf(entries) ensures key in PORT_KEYS { NoOtherKeysStand(entries, key); }
    hide ObjectOf, KeysDiffer, Get;
    forall i | 0 <= i < |entries| ensures At(PortToJson(port), entries[i].0) == entries[i].1 { }
    assert entries[0].0 == "name";
    assert entries[1].0 == "type";
    assert entries[2].0 == "cardinality_kind";
    assert entries[3].0 == "current_port_count";
    assert entries[4].0 == "render_port_count";
    assert entries[5].0 == "min_port_count";
    assert entries[6].0 == "max_port_count";
    assert entries[7].0 == "size_parameter";
    assert entries[8].0 == "handle_name_template";
  }

  /** So is a parameter. */
  lemma ParameterDocument(parameter: ParameterDescriptor)
    ensures At(ParameterToJson(parameter), "name") == Some(JString(parameter.name))
    ensures At(ParameterToJson(parameter), "type") == Some(JString(parameter.kind))
    ensures At(ParameterToJson(parameter), "required") == Some(JBool(parameter.required))
    ensures At(ParameterToJson(parameter), "default_value") == Some(Default(parameter.defaultValue))
    ensures At(ParameterToJson(parameter), "summary") == Some(JString(parameter.summary))
    ensures At(ParameterToJson(parameter), "runtime_mutability") == Text(parameter.runtimeMutability)
    ensures At(ParameterToJson(parameter), "value_kind") == Text(parameter.valueKind)
    ensures At(ParameterToJson(parameter), "enum_choices") == Choices(parameter.enumChoices)
    ensures At(ParameterToJson(parameter), "enum_type") == Text(parameter.enumType)
    ensures At(ParameterToJson(parameter), "enum_labels") == Labels(parameter.enumLabels)
    ensures At(ParameterToJson(parameter), "enum_source") == Text(parameter.enumSource)
    ensures At(ParameterToJson(parameter), "ui_hint") == Text(parameter.uiHint)
    ensures At(ParameterToJson(parameter), "allow_custom_value") == Flag(parameter.allowCustomValue)
    ensures ParameterToJson(parameter).JObject?
    ensures forall key :: key in ParameterToJson(parameter).fields ==> key in PARAMETER_KEYS
  {
    ParameterDocumentKeys(parameter);
    var entries := ParameterFields(parameter);
    ParameterKeysDiffer(parameter);
    FieldsReadBack(entries);
    hide ObjectOf, KeysDiffer, Get;
    forall i | 0 <= i < |entries| ensures At(ParameterToJson(parameter), entries[i].0) == entries[i].1 { }
    assert entries[0].0 == "name";
    assert entries[1].0 == "type";
    assert entries[2].0 == "required";
    assert entries[3].0 == "default_value";
    assert entries[4].0 == "summary";
    assert entries[5].0 == "runtime_mutability";
    assert entries[6].0 == "value_kind";
    assert entries[7].0 == "enum_choices";
    assert entries[8].0 == "enum_type";
    assert entries[9].0 == "enum_labels";
    assert entries[10].0 == "enum_source";
    assert entries[11].0 == "ui_hint";
    assert entries[12].0 == "allow_custom_value";
  }

  lemma ParameterDocumentKeys(parameter: ParameterDescriptor)
    ensures ParameterToJson(parameter).JObject? && forall key :: key in ParameterToJson(parameter).fields ==> key in PARAMETER_KEYS
  {
    var entries := ParameterFields(parameter);
    hide ObjectOf;
    forall key | key in ObjectOf(entries) ensures key in PARAMETER_KEYS { NoOtherKeysStand(entries, key); }
  }

  /** And a block, with the documents of its ports and parameters in their order. */
  lemma BlockDocument(block: BlockDescriptor)
    ensures At(BlockToJson(block), "id") == Some(JString(block.id))
    ensures At(BlockToJson(block), "name") == Some(JString(block.name))
    ensures At(BlockToJson(block), "category") == Some(JString(block.category))
    ensures At(BlockToJson(block), "summary") == Some(JString(block.summary))
    ensures At(BlockToJson(block), "canonical_type") == Text(block.canonicalType)
    ensures At(BlockToJson(block), "inputs") == Some(JArray(Each(block.inputs, PortToJson)))
    ensures At(BlockToJson(block), "outputs") == Some(JArray(Each(block.outputs, PortToJson)))
    ensures At(BlockToJson(block), "parameters") == Some(JArray(Each(block.parameters, ParameterToJson)))
    ensures BlockToJson(block).JObject?
    ensures forall key :: key in BlockToJson(block).fields ==> key in BLOCK_KEYS
  {
    var entries := BlockFields(block);
    BlockKeysDiffer(block);
    FieldsReadBack(entries);
    forall key | key in ObjectOf(entries) ensures key in BLOCK_KEYS { NoOtherKeysStand(entries, key); }
    hide ObjectOf, KeysDiffer, Get;
    forall i | 0 <= i < |entries| ensures At(BlockToJson(block), entries[i].0) == entries[i].1 { }
    assert entries[0].0 == "id";
    assert entries[1].0 == "name";
    assert entries[2].0 == "category";
    assert entries[3].0 == "summary";
    assert entries[4].0 == "inputs";
    assert entries[5].0 == "outputs";
    assert entries[6].0 == "parameters";
    assert entries[7].0 == "canonical_type";
  }

  // ----- documents that are read -----

  /** A field of the wrong kind reads as an absent one. */
  predicate TextRead(found: Option<Json>, value: Option<string>) {
    match found case Some(JString(text)) => value == Some(text) case _ => value.None?
  }

  /** Counts are taken modulo the range of `int`. */
  predicate CountRead(found: Option<Json>, value: Option<Int32>) {
    match found case Some(JInt(number)) => value.Some? && (number - value.value) % 0x1_0000_0000 == 0 case _ => value.None?
  }

  predicate FlagRead(found: Option<Json>, value: Option<bool>) {
    match found case Some(JBool(flag)) => value == Some(flag) case _ => value.None?
  }

  predicate DefaultRead(found: Option<Json>, value: ParameterDefault) {
    match found
    case Some(JNull) => value.NoDefault?
    case Some(JBool(flag)) => value == BoolDefault(flag)
    case Some(JInt(number)) => value.IntDefault? && (number - value.number) % 0x1_0000_0000 == 0
    case Some(JFloat(amount)) => value == DoubleDefault(amount)
    case Some(JString(text)) => value == StringDefault(text)
    case _ => false
  }

  predicate ChoicesRead(found: Option<Json>, choices: Option<seq<string>>) {
    match found
    case Some(JArray(items)) =>
      choices.Some? && |items| == |choices.value| && forall i :: 0 <= i < |items| ==> items[i] == JString(choices.value[i])
    case _ => choices.None?
  }

  predicate LabelsRead(found: Option<Json>, labels: map<string, string>) {
    match found
    case Some(JObject(fields)) => fields.Keys == labels.Keys && forall key :: key in fields ==> fields[key] == JString(labels[key])
    case _ => labels == map[]
  }

  predicate PortRead(json: Json, port: PortDescriptor) {
    && At(json, "name") == Some(JString(port.name)) && At(json, "type") == Some(JString(port.kind))
    && (port.cardinality.Dynamic? <==> At(json, "cardinality_kind") == Some(JString("dynamic")))
    && CountRead(At(json, "current_port_count"), port.currentCount) && CountRead(At(json, "render_port_count"), port.renderCount)
    && CountRead(At(json, "min_port_count"), port.minCount) && CountRead(At(json, "max_port_count"), port.maxCount)
    && TextRead(At(json, "size_parameter"), port.sizeParameter)
    && TextRead(At(json, "handle_name_template"), port.handleNameTemplate)
  }

  predicate ParameterRead(json: Json, parameter: ParameterDescriptor) {
    && At(json, "name") == Some(JString(parameter.name)) && At(json, "type") == Some(JString(parameter.kind))
    && At(json, "required") == Some(JBool(parameter.required)) && At(json, "summary") == Some(JString(parameter.summary))
    && DefaultRead(At(json, "default_value"), parameter.defaultValue)
    && TextRead(At(json, "runtime_mutability"), parameter.runtimeMutability)
    && TextRead(At(json, "value_kind"), parameter.valueKind)
    && ChoicesRead(At(json, "enum_choices"), parameter.enumChoices) && TextRead(At(json, "enum_type"), parameter.enumType)
    && LabelsRead(At(json, "enum_labels"), parameter.enumLabels) && TextRead(At(json, "enum_source"), parameter.enumSource)
    && TextRead(At(json, "ui_hint"), parameter.uiHint) && FlagRead(At(json, "allow_custom_value"), parameter.allowCustomValue)
  }

  lemma TextIsRead(json: Json, key: string)
    ensures forall value :: TextAt(json, key) == value <==> TextRead(At(json, key), value)
  {
  }

  lemma CountIsRead(json: Json, key: string)
    ensures forall value :: IntAt(json, key) == value <==> CountRead(At(json, key), value)
  {
    forall value ensures IntAt(json, key) == value <==> CountRead(At(json, key), value) {
      match At(json, key)
      case Some(JInt(number)) => if value.Some? { WrapsTo(number, value.value); }
      case _ =>
    }
  }

  /** The one value of `int` that agrees with a number modulo its range is what the number is read as. */
  lemma WrapsTo(number: int, value: Int32)
    ensures ToInt32(number) == value <==> (number - value) % 0x1_0000_0000 == 0
  {
    var wrapped := ToInt32(number);
    WrappingKeepsIff(number);
    assert (number - wrapped) % 0x1_0000_0000 == 0;
    if (number - value) % 0x1_0000_0000 == 0 {
      var k, l := (number - wrapped) / 0x1_0000_0000, (number - value) / 0x1_0000_0000;
      assert number - wrapped == k * 0x1_0000_0000 && number - value == l * 0x1_0000_0000;
      assert IsInt32(value) && IsInt32(wrapped);
      assert value - wrapped == (k - l) * 0x1_0000_0000 && -0x1_0000_0000 < value - wrapped < 0x1_0000_0000;
      assert k == l;
    }
  }

  /** A port is read from exactly the documents that have its name and type, and its other fields as far as they can be read. */
  lemma PortIsRead(json: Json, port: PortDescriptor)
    ensures ParsePort(json) == Ok(port) <==> PortRead(json, port)
    ensures ParsePort(json).Err? ==> ParsePort(json).error == MalformedPayload
  {
    TextIsRead(json, "size_parameter");
    TextIsRead(json, "handle_name_template");
    TextIsRead(json, "name");
    TextIsRead(json, "type");
    CountIsRead(json, "current_port_count");
    CountIsRead(json, "render_port_count");
    CountIsRead(json, "min_port_count");
    CountIsRead(json, "max_port_count");
    assert ParseCardinality(TextAt(json, "cardinality_kind")).Dynamic? <==> At(json, "cardinality_kind") == Some(JString("dynamic"));
    hide At, IntAt, CountRead, ToInt32;
  }

  lemma ChoicesAreRead(found: Option<Json>, choices: Option<seq<string>>)
    ensures ParseChoices(found) == Ok(choices) <==> ChoicesRead(found, choices)
  {
    if found.Some? && found.value.JArray? && ChoicesRead(found, choices) {
      assert ParseChoices(found).Ok? && ParseChoices(found).value.value == choices.value;
    }
  }

  lemma LabelsAreRead(found: Option<Json>, labels: map<string, string>)
    ensures ParseLabels(found) == Ok(labels) <==> LabelsRead(found, labels)
  {
    if found.Some? && found.value.JObject? && LabelsRead(found, labels) {
      assert ParseLabels(found).Ok? && ParseLabels(found).value == labels;
    }
  }

  lemma DefaultIsRead(json: Json, value: ParameterDefault)
    ensures ParseDefault(json) == Ok(value) <==> DefaultRead(Some(json), value)
    ensures ParseDefault(json) == Err(UnsupportedDefault) <==> json.JArray? || json.JObject?
  {
    if json.JInt? && value.IntDefault? { WrapsTo(json.number, value.number); }
  }

  /** The same for a parameter; a default that is an array or an object is refused, and so are choices and labels that are no texts. */
  lemma ParameterIsRead(json: Json, parameter: ParameterDescriptor)
    ensures ParseParameter(json) == Ok(parameter) <==> ParameterRead(json, parameter)
  {
    TextIsRead(json, "runtime_mutability");
    TextIsRead(json, "value_kind");
    TextIsRead(json, "enum_type");
    TextIsRead(json, "enum_source");
    TextIsRead(json, "ui_hint");
    TextIsRead(json, "name");
    TextIsRead(json, "type");
    TextIsRead(json, "summary");
    ChoicesAreRead(At(json, "enum_choices"), parameter.enumChoices);
    LabelsAreRead(At(json, "enum_labels"), parameter.enumLabels);
    if At(json, "default_value").Some? { DefaultIsRead(At(json, "default_value").value, parameter.defaultValue); }
    assert forall value :: BoolAt(json, "required") == Some(value) <==> At(json, "required") == Some(JBool(value));
    assert forall value :: BoolAt(json, "allow_custom_value") == value <==> FlagRead(At(json, "allow_custom_value"), value);
    hide At, TextAt, BoolAt, FlagRead, ParseChoices, ParseLabels, ParseDefault, ChoicesRead, LabelsRead;
  }

  lemma {:induction false} AllAreRead<T>(items: seq<Json>, parse: Json -> Result<T, ReflectionError>, read: seq<T>)
    ensures ParseAll(items, parse) == Ok(read) <==> |read| == |items| && forall i :: 0 <= i < |items| ==> parse(items[i]) == Ok(read[i])
  {
    if items == [] {
    } else {
      var n := |items| - 1;
      if |read| == |items| {
        AllAreRead(items[..n], parse, read[..n]);
        assert read == read[..n] + [read[n]];
      }
      if ParseAll(items, parse) == Ok(read) {
        var front := ParseAll(items[..n], parse).value;
        AllAreRead(items[..n], parse, front);
        assert read[..n] == front;
      }
    }
  }

  /** These are the keys of the object in order, and the items what stands under them. */
  ghost predicate ByKey(fields: map<string, Json>, keys: seq<string>, items: seq<Json>) {
    && |keys| == |items| && Elements(keys) == fields.Keys
    && (forall i, j :: 0 <= i < j < |keys| ==> Less(keys[i], keys[j]))
    && (forall i :: 0 <= i < |keys| ==> keys[i] in fields && items[i] == fields[keys[i]])
  }

  /** What a loop over a value visits: the items of an array, the values of an object by key, nothing, or the value itself. */
  ghost predicate Visits(found: Option<Json>, items: seq<Json>) {
    match found
    case Some(JArray(all)) => items == all
    case Some(JObject(fields)) => exists keys :: ByKey(fields, keys, items)
    case Some(JNull) => items == []
    case Some(single) => items == [single]
    case None => false
  }

  lemma {:induction false} OrderIsUnique(a: seq<string>, b: seq<string>)
    requires Elements(a) == Elements(b)
    requires forall i, j :: 0 <= i < j < |a| ==> Less(a[i], a[j])
    requires forall i, j :: 0 <= i < j < |b| ==> Less(b[i], b[j])
    ensures a == b
  {
    hide Less;
    forall x ensures x in a <==> x in b { assert x in Elements(a) <==> x in Elements(b); }
    assert a != [] ==> a[0] in Elements(a);
    assert b != [] ==> b[0] in Elements(b);
    if a != [] {
      assert a[0] in a && b[0] in b;
      var i :| 0 <= i < |b| && b[i] == a[0];
      var j :| 0 <= j < |a| && a[j] == b[0];
      LessIsTotal(a[0], b[0]);
      assert a[0] == b[0];
      LessIsTotal(a[0], a[0]);
      forall x ensures x in a[1..] <==> x in a && x != a[0] { }
      forall x ensures x in b[1..] <==> x in b && x != b[0] { }
      assert Elements(a[1..]) == Elements(b[1..]);
      OrderIsUnique(a[1..], b[1..]);
    }
  }

  lemma ValuesAreByKey(fields: map<string, Json>, items: seq<Json>)
    ensures items == ValuesInOrder(fields) <==> exists keys :: ByKey(fields, keys, items)
  {
    hide Less;
    var ordered := InOrder(fields.Keys);
    forall i | 0 <= i < |ordered| ensures ordered[i] in fields { assert ordered[i] in Elements(ordered); }
    assert ByKey(fields, ordered, ValuesInOrder(fields));
    if keys :| ByKey(fields, keys, items) {
      OrderIsUnique(keys, ordered);
      assert items == ValuesInOrder(fields);
    }
  }

  lemma ItemsAreVisited(found: Option<Json>, items: seq<Json>)
    ensures ItemsOf(found) == Ok(items) <==> Visits(found, items)
  {
    if found.Some? && found.value.JObject? { ValuesAreByKey(found.value.fields, items); }
    hide ByKey, ValuesInOrder;
  }

  /** The parts of a list are read from what a loop over it visits. */
  ghost predicate PortsRead(found: Option<Json>, ports: seq<PortDescriptor>) {
    exists items :: Visits(found, items) && |items| == |ports| && forall i :: 0 <= i < |items| ==> PortRead(items[i], ports[i])
  }

  ghost predicate ParametersRead(found: Option<Json>, parameters: seq<ParameterDescriptor>) {
    exists items ::
      Visits(found, items) && |items| == |parameters| && forall i :: 0 <= i < |items| ==> ParameterRead(items[i], parameters[i])
  }

  lemma PortsAreRead(found: Option<Json>, ports: seq<PortDescriptor>)
    ensures ParseList(found, ParsePort) == Ok(ports) <==> PortsRead(found, ports)
  {
    hide ParsePort, PortRead, Visits, ItemsOf;
    forall json, port ensures ParsePort(json) == Ok(port) <==> PortRead(json, port) { PortIsRead(json, port); }
    forall items ensures ItemsOf(found) == Ok(items) <==> Visits(found, items) { ItemsAreVisited(found, items); }
    if ItemsOf(found).Ok? { AllAreRead(ItemsOf(found).value, ParsePort, ports); }
  }

  lemma ParametersAreRead(found: Option<Json>, parameters: seq<ParameterDescriptor>)
    ensures ParseList(found, ParseParameter) == Ok(parameters) <==> ParametersRead(found, parameters)
  {
    hide ParseParameter, ParameterRead, Visits, ItemsOf;
    forall json, parameter ensures ParseParameter(json) == Ok(parameter) <==> ParameterRead(json, parameter) {
      ParameterIsRead(json, parameter);
    }
    forall items ensures ItemsOf(found) == Ok(items) <==> Visits(found, items) { ItemsAreVisited(found, items); }
    if ItemsOf(found).Ok? { AllAreRead(ItemsOf(found).value, ParseParameter, parameters); }
  }

  ghost predicate BlockRead(json: Json, block: BlockDescriptor) {
    && At(json, "id") == Some(JString(block.id)) && At(json, "name") == Some(JString(block.name))
    && At(json, "category") == Some(JString(block.category)) && At(json, "summary") == Some(JString(block.summary))
    && PortsRead(At(json, "inputs"), block.inputs) && PortsRead(At(json, "outputs"), block.outputs)
    && ParametersRead(At(json, "parameters"), block.parameters)
    && (match At(json, "canonical_type")
        case Some(JString(text)) => block.canonicalType == if text == "" then None else Some(text)
        case _ => block.canonicalType.None?)
  }

  /** A block is read from exactly the documents that hold its texts, and its ports and parameters in their order. */
  lemma BlockIsRead(json: Json, block: BlockDescriptor)
    ensures ParseBlock(json) == Ok(block) <==> BlockRead(json, block)
  {
    TextIsRead(json, "id");
    TextIsRead(json, "name");
    TextIsRead(json, "category");
    TextIsRead(json, "summary");
    TextIsRead(json, "canonical_type");
    PortsAreRead(At(json, "inputs"), block.inputs);
    PortsAreRead(At(json, "outputs"), block.outputs);
    ParametersAreRead(At(json, "parameters"), block.parameters);
    hide At, ParseList, PortsRead, ParametersRead;
  }
}
