/**
 * How a stored graph is rewritten before it is loaded: block and connection normal forms, and the
 * injection of the internal endpoints. The functions say what the in-place walks compute.
 */
module FlowGraphs {
  import opened Common
  import opened Digits
  import opened Pmt
  import opened SessionStreams
  import opened StreamBindings

  datatype GraphError = PortNumberOutOfRange | BindingNotInjected

  // ----- blocks -----

  /** The id a block carries after normalization: its type, where a type is given. */
  function WithTypeId(block: PropertyMap): PropertyMap {
    if !Blank(StringAt(block, "block")) then block["id" := block["block"]]
    else if "id" !in block && !Blank(StringAt(block, "block_type")) then block["id" := block["block_type"]]
    else block
  }

  /** The merged parameters, named after the authored id or the block's own name keys if they have no name. */
  function NamedParameters(block: PropertyMap): PropertyMap {
    var parameters := MergedParameters(block);
    if "name" in parameters then parameters
    else if !Blank(StringAt(block, "id")) then parameters["name" := block["id"]]
    else if OwnName(block).Some? then parameters["name" := StringValue(OwnName(block).value)]
    else parameters
  }

  function NormalizeBlock(block: PropertyMap): PropertyMap {
    var parameters := NamedParameters(block);
    if parameters == map[] then WithTypeId(block) else WithTypeId(block)["parameters" := MapValue(parameters)]
  }

  function NormalizeItem(item: Value): Value {
    if item.MapValue? then MapValue(NormalizeBlock(item.fields)) else item
  }

  // ----- connections -----

  const INT64_MAX: int := 0x7fff_ffff_ffff_ffff

  /** What follows the last 't'; the whole token when it has none. */
  function AfterLastT(token: string): string {
    if token == "" || token[|token| - 1] == 't' then ""
    else AfterLastT(token[..|token| - 1]) + [token[|token| - 1]]
  }

  function ParseNumber(digits: string): Result<Value, GraphError>
    requires AllDigits(digits)
  {
    if Number(digits) <= INT64_MAX then Ok(IntValue(Int64, Number(digits))) else Err(PortNumberOutOfRange)
  }

  function NormalizePort(token: string): Result<Value, GraphError> {
    if token == "in" || token == "out" then Ok(IntValue(Int64, 0))
    else if AllDigits(token) then ParseNumber(token)
    else if |token| > 2 && ("in" <= token || "out" <= token) && AllDigits(AfterLastT(token)) then
      ParseNumber(AfterLastT(token))
    else Ok(StringValue(token))
  }

  /** A port place of a connection: only strings are rewritten. */
  function NormalizeEnd(port: Value): Result<Value, GraphError> {
    if port.StringValue? then NormalizePort(port.text) else Ok(port)
  }

  function NormalizeConnection(connection: Value): Result<Value, GraphError> {
    if connection.TensorValue? then
      var items := connection.items;
      if |items| < 4 then Ok(connection)
      else match (NormalizeEnd(items[1]), NormalizeEnd(items[3]))
        case (Ok(source), Ok(dest)) => Ok(TensorValue(items[1 := source][3 := dest]))
        case _ => Err(PortNumberOutOfRange)
    else if connection.MapValue? then
      var fields := connection.fields;
      match (StringAt(fields, "source_block"), StringAt(fields, "source_port_token"),
             StringAt(fields, "dest_block"), StringAt(fields, "dest_port_token"))
      case (Some(source), Some(sourcePort), Some(dest), Some(destPort)) =>
        (match (NormalizePort(sourcePort), NormalizePort(destPort))
         case (Ok(p), Ok(q)) => Ok(TensorValue([StringValue(source), p, StringValue(dest), q]))
         case _ => Err(PortNumberOutOfRange))
      case _ => Ok(connection)
    else Ok(connection)
  }

  /** All connections, or the first failure among them. */
  function NormalizeConnections(connections: seq<Value>): Result<seq<Value>, GraphError> {
    if connections == [] then Ok([])
    else match (NormalizeConnection(connections[0]), NormalizeConnections(connections[1..]))
      case (Ok(first), Ok(rest)) => Ok([first] + rest)
      case _ => Err(PortNumberOutOfRange)
  }

  // ----- endpoint injection -----

  /** The runtime's idea of a block's name. */
  function RuntimeName(block: PropertyMap): Option<string> {
    var named := StringAt(MapAt(block, "parameters"), "name");
    if !Blank(named) then named
    else if !Blank(StringAt(block, "instance_name")) then StringAt(block, "instance_name")
    else None
  }

  /** The position of the first binding made for a block of this name. */
  function BindingFor(name: string, bindings: seq<StreamBinding>): (found: Option<nat>)
    ensures found.Some? ==> found.value < |bindings| && bindings[found.value].plan.blockInstanceName == name
    ensures found.Some? ==> forall i :: 0 <= i < found.value ==> bindings[i].plan.blockInstanceName != name
    ensures found.None? ==> forall i :: 0 <= i < |bindings| ==> bindings[i].plan.blockInstanceName != name
  {
    if bindings == [] then None
    else if bindings[0].plan.blockInstanceName == name then Some(0)
    else match BindingFor(name, bindings[1..])
      case Some(i) => Some(i + 1)
      case None => None
  }

  /** Which binding, if any, a place of the block list receives. */
  function Receives(item: Value, bindings: seq<StreamBinding>): (found: Option<nat>)
    ensures found.Some? ==> found.value < |bindings| && item.MapValue?
  {
    if item.MapValue? && RuntimeName(item.fields).Some? then BindingFor(RuntimeName(item.fields).value, bindings) else None
  }

  function WithEndpoint(block: PropertyMap, endpoint: string): PropertyMap {
    block["parameters" := MapValue(MapAt(block, "parameters")["endpoint" := StringValue(endpoint)])]
  }

  function InjectItem(item: Value, bindings: seq<StreamBinding>): Value {
    match Receives(item, bindings)
    case Some(i) => MapValue(WithEndpoint(item.fields, bindings[i].internal.endpoint))
    case None => item
  }

  function InjectItems(items: seq<Value>, bindings: seq<StreamBinding>): (injected: seq<Value>)
    ensures |injected| == |items|
  {
    seq(|items|, k requires 0 <= k < |items| => InjectItem(items[k], bindings))
  }

  function InjectedIds(items: seq<Value>, bindings: seq<StreamBinding>): set<string> {
    set k | 0 <= k < |items| && Receives(items[k], bindings).Some? :: bindings[Receives(items[k], bindings).value].plan.streamId
  }

  function InjectBindings(root: PropertyMap, bindings: seq<StreamBinding>): Result<PropertyMap, GraphError> {
    if bindings == [] then Ok(root)
    else match ItemsAt(root, "blocks")
      case None => Ok(root)
      case Some(items) =>
        if |InjectedIds(items, bindings)| != |bindings| then Err(BindingNotInjected)
        else Ok(root["blocks" := TensorValue(InjectItems(items, bindings))])
  }

  // ----- the whole rewriting -----

  function NormalizeItems(items: seq<Value>): (normal: seq<Value>)
    ensures |normal| == |items|
  {
    seq(|items|, k requires 0 <= k < |items| => NormalizeItem(items[k]))
  }

  function NormalizeBlocks(root: PropertyMap): PropertyMap {
    match ItemsAt(root, "blocks")
    case None => root
    case Some(items) => root["blocks" := TensorValue(NormalizeItems(items))]
  }

  function NormalizeLinks(root: PropertyMap): Result<PropertyMap, GraphError> {
    match ItemsAt(root, "connections")
    case None => Ok(root)
    case Some(items) =>
      match NormalizeConnections(items)
      case Ok(normal) => Ok(root["connections" := TensorValue(normal)])
      case Err(error) => Err(error)
  }

  function NormalizeGraph(root: PropertyMap, bindings: seq<StreamBinding>): Result<PropertyMap, GraphError> {
    match NormalizeLinks(NormalizeBlocks(root))
    case Err(error) => Err(error)
    case Ok(normal) => InjectBindings(normal, bindings)
  }

  /** The graph handed to the loader; text that does not parse is passed on as it is (`None`). */
  function LoadedGraph(yaml: Yaml, grc: string, bindings: seq<StreamBinding>): Result<Option<PropertyMap>, GraphError> {
    match yaml(grc)
    case None => Ok(None)
    case Some(root) =>
      match NormalizeGraph(root, bindings)
      case Ok(graph) => Ok(Some(graph))
      case Err(error) => Err(error)
  }
}
