/** Settings of a running block: JSON to property map and back. */
module BlockSettings {
  import opened Common
  import opened JsonValues
  import opened Pmt

  datatype SettingsError = ValidationError | RuntimeError

  // ----- from JSON -----

  function ToPmt(json: Json): Result<Value, SettingsError> {
    match json
    case JNull => Ok(NullValue)
    case JBool(flag) => Ok(BoolValue(flag))
    case JInt(number) => Ok(IntValue(Int64, ToInt64(number)))
    case JFloat(amount) => Ok(RealValue(Double, amount))
    case JString(text) => Ok(StringValue(text))
    case JArray(_) => Err(ValidationError)
    case JObject(fields) =>
      if forall key :: key in fields ==> ToPmt(fields[key]).Ok? then
        Ok(MapValue(map key | key in fields :: ToPmt(fields[key]).value))
      else
        Err(ValidationError)
  }

  function ToPropertyMap(json: Json): Result<PropertyMap, SettingsError> {
    if !json.JObject? then Err(ValidationError)
    else match ToPmt(json)
      case Ok(value) => Ok(value.fields)
      case Err(error) => Err(error)
  }

  method JsonToPropertyMap(json: Json) returns (result: Result<PropertyMap, SettingsError>)
    ensures result == ToPropertyMap(json)
    decreases json, 0
  {
    if !json.JObject? { return Err(ValidationError); }
    var converted: PropertyMap := map[];
    var todo := json.fields.Keys;
    while todo != {}
      invariant todo <= json.fields.Keys
      invariant converted.Keys == json.fields.Keys - todo
      invariant forall key :: key in converted ==> ToPmt(json.fields[key]) == Ok(converted[key])
      decreases |todo|
    {
      var key :| key in todo;
      var item := JsonToPmtValue(json.fields[key]);
      if item.Err? { return Err(item.error); }
      converted := converted[key := item.value];
      todo := todo - {key};
    }
    assert forall key :: key in json.fields ==> key in converted;
    assert converted == ToPmt(json).value.fields;
    return Ok(converted);
  }

  method JsonToPmtValue(json: Json) returns (result: Result<Value, SettingsError>)
    ensures result == ToPmt(json)
    decreases json, 1
  {
    match json
    case JNull => return Ok(NullValue);
    case JBool(flag) => return Ok(BoolValue(flag));
    case JInt(number) => return Ok(IntValue(Int64, ToInt64(number)));
    case JFloat(amount) => return Ok(RealValue(Double, amount));
    case JString(text) => return Ok(StringValue(text));
    case JArray(_) => return Err(ValidationError);
    case JObject(_) =>
      var fields := JsonToPropertyMap(json);
      match fields
      case Ok(converted) => return Ok(MapValue(converted));
      case Err(error) => return Err(error);
  }

  // ----- to JSON -----

  function FromPmt(value: Value): Result<Json, SettingsError> {
    match value
    case NullValue => Ok(JNull)
    case BoolValue(flag) => Ok(JBool(flag))
    case IntValue(_, number) => Ok(JInt(number))
    case RealValue(_, amount) => Ok(JFloat(amount))
    case StringValue(text) => Ok(JString(text))
    case MapValue(fields) =>
      if forall key :: key in fields ==> FromPmt(fields[key]).Ok? then
        Ok(JObject(map key | key in fields :: FromPmt(fields[key]).value))
      else
        Err(RuntimeError)
    case TensorValue(_) => Err(RuntimeError)
    case OpaqueValue(_) => Err(RuntimeError)
  }

  method PropertyMapToJson(fields: PropertyMap) returns (result: Result<Json, SettingsError>)
    ensures result == FromPmt(MapValue(fields))
    decreases MapValue(fields), 0
  {
    var converted: map<string, Json> := map[];
    var todo := fields.Keys;
    while todo != {}
      invariant todo <= fields.Keys
      invariant converted.Keys == fields.Keys - todo
      invariant forall key :: key in converted ==> FromPmt(fields[key]) == Ok(converted[key])
      decreases |todo|
    {
      var key :| key in todo;
      var item := PmtValueToJson(fields[key]);
      if item.Err? { return Err(item.error); }
      converted := converted[key := item.value];
      todo := todo - {key};
    }
    assert forall key :: key in fields ==> key in converted;
    assert converted == FromPmt(MapValue(fields)).value.fields;
    return Ok(JObject(converted));
  }

  method PmtValueToJson(value: Value) returns (result: Result<Json, SettingsError>)
    ensures result == FromPmt(value)
    decreases value, 1
  {
    var json, converted := JNull, false;
    match value {
      case NullValue => json, converted := JNull, true;
      case BoolValue(flag) => json, converted := JBool(flag), true;
      case IntValue(_, number) => json, converted := JInt(number), true;
      case RealValue(_, amount) => json, converted := JFloat(amount), true;
      case StringValue(text) => json, converted := JString(text), true;
      case MapValue(fields) =>
        var inner := PropertyMapToJson(fields);
        if inner.Err? { return inner; }
        json, converted := inner.value, true;
      case TensorValue(_) =>
      case OpaqueValue(_) =>
    }
    return if converted then Ok(json) else Err(RuntimeError);
  }

  // ----- what the conversions mean -----

  /** The value holds the data of the document: key by key, numbers as `double` or, modulo its range, as `std::int64_t`. */
  predicate HoldsData(json: Json, value: Value) {
    match json
    case JNull => value.NullValue?
    case JBool(flag) => value == BoolValue(flag)
    case JInt(number) =>
      && value.IntValue? && value.integerType.Int64? && -0x8000_0000_0000_0000 <= value.number < 0x8000_0000_0000_0000
      && (number - value.number) % 0x1_0000_0000_0000_0000 == 0
    case JFloat(amount) => value == RealValue(Double, amount)
    case JString(text) => value == StringValue(text)
    case JArray(_) => false
    case JObject(fields) =>
      value.MapValue? && value.fields.Keys == fields.Keys && forall key :: key in fields ==> HoldsData(fields[key], value.fields[key])
  }

  /** The document shows the data of the value, whatever type its numbers have. */
  predicate ShowsData(value: Value, json: Json) {
    match value
    case NullValue => json.JNull?
    case BoolValue(flag) => json == JBool(flag)
    case IntValue(_, number) => json == JInt(number)
    case RealValue(_, amount) => json == JFloat(amount)
    case StringValue(text) => json == JString(text)
    case MapValue(fields) =>
      json.JObject? && json.fields.Keys == fields.Keys && forall key :: key in fields ==> ShowsData(fields[key], json.fields[key])
    case _ => false
  }

  lemma WrapsTo(number: int, value: int)
    ensures ToInt64(number) == value <==>
      -0x8000_0000_0000_0000 <= value < 0x8000_0000_0000_0000 && (number - value) % 0x1_0000_0000_0000_0000 == 0
  {
    var wrapped, range := ToInt64(number), 0x1_0000_0000_0000_0000;
    WrappingKeepsIff(number);
    assert (number - wrapped) % range == 0;
    if -0x8000_0000_0000_0000 <= value < 0x8000_0000_0000_0000 && (number - value) % range == 0 {
      var k, l := (number - wrapped) / range, (number - value) / range;
      assert number - wrapped == k * range && number - value == l * range;
      assert value - wrapped == (k - l) * range && -range < value - wrapped < range;
      assert k == l;
    }
  }

  lemma {:induction false} AcceptedMeans(json: Json, value: Value)
    ensures ToPmt(json) == Ok(value) <==> HoldsData(json, value)
  {
    match json
    case JInt(number) => if value.IntValue? { WrapsTo(number, value.number); }
    case JObject(fields) =>
      if value.MapValue? && value.fields.Keys == fields.Keys {
        forall key | key in fields ensures ToPmt(fields[key]) == Ok(value.fields[key]) <==> HoldsData(fields[key], value.fields[key]) {
          AcceptedMeans(fields[key], value.fields[key]);
        }
        if HoldsData(json, value) { assert ToPmt(json).value.fields == value.fields; }
        if ToPmt(json) == Ok(value) {
          forall key | key in fields ensures ToPmt(fields[key]) == Ok(value.fields[key]) { assert key in value.fields; }
        }
      }
    case _ =>
  }

  lemma {:induction false} ShownMeans(value: Value, json: Json)
    ensures FromPmt(value) == Ok(json) <==> ShowsData(value, json)
  {
    if value.MapValue? && json.JObject? && json.fields.Keys == value.fields.Keys {
      var fields := value.fields;
      forall key | key in fields ensures FromPmt(fields[key]) == Ok(json.fields[key]) <==> ShowsData(fields[key], json.fields[key]) {
        ShownMeans(fields[key], json.fields[key]);
      }
      if ShowsData(value, json) { assert FromPmt(value).value.fields == json.fields; }
      if FromPmt(value) == Ok(json) {
        forall key | key in fields ensures FromPmt(fields[key]) == Ok(json.fields[key]) { assert key in json.fields; }
      }
    }
  }

  // ----- what is accepted -----

  predicate HasArray(json: Json) {
    match json
    case JArray(_) => true
    case JObject(fields) => exists key :: key in fields && HasArray(fields[key])
    case _ => false
  }

  /** A settings body is accepted exactly when it is an object without an array at any depth. */
  lemma {:induction false} BodyIsAcceptedIff(json: Json)
    ensures ToPropertyMap(json).Ok? <==> json.JObject? && !HasArray(json)
    ensures ToPmt(json).Ok? <==> !HasArray(json)
    ensures ToPmt(json).Err? ==> ToPmt(json).error == ValidationError
  {
    if json.JObject? {
      forall key | key in json.fields ensures ToPmt(json.fields[key]).Ok? <==> !HasArray(json.fields[key]) {
        BodyIsAcceptedIff(json.fields[key]);
      }
    }
  }

  /** Every integer of the document is one of `std::int64_t`. */
  predicate IntegersFit(json: Json) {
    match json
    case JInt(number) => IsInt64(number)
    case JObject(fields) => forall key :: key in fields ==> IntegersFit(fields[key])
    case JArray(items) => forall i :: 0 <= i < |items| ==> IntegersFit(items[i])
    case _ => true
  }

  /** Accepted settings can always be shown again, as an object of the same shape. */
  lemma {:induction false} AcceptedSettingsCanBeShown(json: Json)
    requires !HasArray(json)
    ensures ToPmt(json).Ok? && FromPmt(ToPmt(json).value).Ok?
  {
    if json.JObject? {
      forall key | key in json.fields
        ensures ToPmt(json.fields[key]).Ok? && FromPmt(ToPmt(json.fields[key]).value).Ok?
      {
        AcceptedSettingsCanBeShown(json.fields[key]);
      }
    }
  }

  /** Showing accepted settings gives the very document back exactly when all integers fit. */
  lemma {:induction false} SettingsRoundTripIff(json: Json)
    requires !HasArray(json)
    ensures ToPmt(json).Ok? && (FromPmt(ToPmt(json).value) == Ok(json) <==> IntegersFit(json))
  {
    AcceptedSettingsCanBeShown(json);
    match json
    case JInt(number) => WrappingKeepsIff(number);
    case JObject(fields) =>
      var value := ToPmt(json).value;
      var shown := FromPmt(value).value;
      forall key | key in fields
        ensures FromPmt(ToPmt(fields[key]).value) == Ok(shown.fields[key])
        ensures shown.fields[key] == fields[key] <==> IntegersFit(fields[key])
      {
        SettingsRoundTripIff(fields[key]);
      }
      assert shown.fields == fields <==> forall key :: key in fields ==> shown.fields[key] == fields[key];
    case _ =>
  }

  /** The same statement about whole request bodies and property maps. */
  lemma SettingsBodyRoundTripsIff(json: Json)
    requires json.JObject? && !HasArray(json)
    ensures ToPropertyMap(json).Ok?
    ensures FromPmt(MapValue(ToPropertyMap(json).value)) == Ok(json) <==> IntegersFit(json)
  {
    SettingsRoundTripIff(json);
  }

  /** The guard against large unsigned values comes too late: such a value is taken, and wraps. */
  lemma LargeUnsignedIsAccepted(number: int)
    requires TWO_TO_THE_63 <= number < TWO_TO_THE_64
    ensures ToPmt(JInt(number)) == Ok(IntValue(Int64, number - TWO_TO_THE_64)) && number - TWO_TO_THE_64 < 0
  {
  }

  // ----- what can be shown -----

  predicate Showable(value: Value) {
    match value
    case TensorValue(_) => false
    case OpaqueValue(_) => false
    case MapValue(fields) => forall key :: key in fields ==> Showable(fields[key])
    case _ => true
  }

  /** Every number of the value is a `std::int64_t` or a `double`, the only types that JSON is read into. */
  predicate PlainNumbers(value: Value) {
    match value
    case IntValue(integerType, number) => integerType.Int64? && IsInt64(number)
    case RealValue(realType, _) => realType.Double?
    case MapValue(fields) => forall key :: key in fields ==> PlainNumbers(fields[key])
    case _ => true
  }

  /** A runtime value can be shown exactly when no tensor or foreign value occurs in it at any depth. */
  lemma {:induction false} ValueIsShownIff(value: Value)
    ensures FromPmt(value).Ok? <==> Showable(value)
    ensures FromPmt(value).Ok? ==> !HasArray(FromPmt(value).value)
    ensures FromPmt(value).Err? ==> FromPmt(value).error == RuntimeError
  {
    if value.MapValue? {
      forall key | key in value.fields
        ensures FromPmt(value.fields[key]).Ok? <==> Showable(value.fields[key])
        ensures FromPmt(value.fields[key]).Ok? ==> !HasArray(FromPmt(value.fields[key]).value)
      {
        ValueIsShownIff(value.fields[key]);
      }
    }
  }

  /** What was shown is the same value when written back exactly when no other types of numbers occur in it. */
  lemma {:induction false} ShownValueCanBeWrittenBackIff(value: Value)
    requires Showable(value)
    ensures FromPmt(value).Ok? && (ToPmt(FromPmt(value).value) == Ok(value) <==> PlainNumbers(value))
  {
    ValueIsShownIff(value);
    match value
    case IntValue(_, number) => WrappingKeepsIff(number);
    case MapValue(fields) =>
      var json := FromPmt(value).value;
      BodyIsAcceptedIff(json);
      var back := ToPmt(json).value;
      forall key | key in fields
        ensures ToPmt(FromPmt(fields[key]).value) == Ok(back.fields[key])
        ensures back.fields[key] == fields[key] <==> PlainNumbers(fields[key])
      {
        ShownValueCanBeWrittenBackIff(fields[key]);
        assert json.fields[key] == FromPmt(fields[key]).value;
      }
      assert back.fields == fields <==> forall key :: key in fields ==> back.fields[key] == fields[key];
    case _ =>
  }
}
