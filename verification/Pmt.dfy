/**
 * The untyped values a flow graph is made of: `gr::pmt::Value` with the kinds the control plane
 * looks at. Every other kind (complex numbers, packed vectors) is an opaque value.
 */
module Pmt {
  import opened Common

  type PropertyMap = map<string, Value>

  /** The C++ type behind a number. */
  datatype IntegerType = Int8 | Int16 | Int32 | Int64 | UInt8 | UInt16 | UInt32 | UInt64
  datatype RealType = Float | Double

  datatype Value =
    | NullValue
    | BoolValue(flag: bool)
    | IntValue(integerType: IntegerType, number: int)
    | RealValue(realType: RealType, amount: real)
    | StringValue(text: string)
    | MapValue(fields: PropertyMap)
    | TensorValue(items: seq<Value>)
    | OpaqueValue(tag: int)

  /** Reading a graph text: the YAML parser is a parameter of the model. */
  type Yaml = string -> Option<PropertyMap>

  function ValueToString(value: Value): Option<string> {
    if value.StringValue? then Some(value.text) else None
  }

  /** The string stored under a key; absent when the key is missing or holds something else. */
  function StringAt(fields: PropertyMap, key: string): Option<string> {
    if key in fields then ValueToString(fields[key]) else None
  }

  /** The map stored under a key; empty when the key is missing or holds something else. */
  function MapAt(fields: PropertyMap, key: string): PropertyMap {
    if key in fields && fields[key].MapValue? then fields[key].fields else map[]
  }

  predicate Blank(text: Option<string>) {
    text.None? || text.value == ""
  }

  /** The items under "blocks" (or "connections"), if that key holds a tensor. */
  function ItemsAt(root: PropertyMap, key: string): Option<seq<Value>> {
    if key in root && root[key].TensorValue? then Some(root[key].items) else None
  }

  /** What stands under a key, if anything does. */
  function At(fields: PropertyMap, key: string): Option<Value> {
    if key in fields then Some(fields[key]) else None
  }

  /** A parameter as it was authored: among the parameters proper, or else among the raw ones. */
  function Authored(block: PropertyMap, parameter: string): Option<Value> {
    if parameter in MapAt(block, "parameters") then Some(MapAt(block, "parameters")[parameter])
    else if parameter in MapAt(block, "raw_parameters") then Some(MapAt(block, "raw_parameters")[parameter])
    else None
  }

  /** A block's parameters, completed by those raw parameters that it does not set itself. */
  function MergedParameters(block: PropertyMap): PropertyMap {
    MapAt(block, "raw_parameters") + MapAt(block, "parameters")
  }

  /** The loop that copies a raw parameter only where no parameter of that name is set. */
  method MergeParameters(parameters: PropertyMap, raw: PropertyMap)
    returns (merged: PropertyMap, grew: bool)
    ensures merged == raw + parameters
    ensures grew <==> exists key :: key in raw && key !in parameters
  {
    merged, grew := parameters, false;
    var todo := raw.Keys;
    while todo != {}
      invariant todo <= raw.Keys
      invariant merged.Keys == parameters.Keys + (raw.Keys - todo)
      invariant forall key :: key in merged ==>
          merged[key] == if key in parameters then parameters[key] else raw[key]
      invariant grew <==> exists key :: key in raw.Keys - todo && key !in parameters
      decreases |todo|
    {
      var key :| key in todo;
      if key !in merged {
        merged := merged[key := raw[key]];
        grew := true;
      }
      todo := todo - {key};
    }
  }
}
