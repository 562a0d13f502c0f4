/**
 * Which streams a stored graph asks the control plane to manage: the contract a graph must meet
 * and the plan derived from it.
 */
module SessionStreams {
  import opened Common
  import opened Pmt
  import opened Sessions

  datatype StreamIntent = StreamIntent(
    declared: bool,
    streamId: Option<string>,
    transport: Option<string>,
    payloadFormat: Option<string>)

  datatype NormalizedBlock = NormalizedBlock(
    blockTypeId: string,
    instanceName: string,
    stream: StreamIntent)

  datatype StreamPlan = StreamPlan(
    streamId: string,
    blockInstanceName: string,
    transport: string,
    payloadFormat: string,
    path: string,
    ready: bool)

  datatype ContractError =
    | MissingInstanceName(blockTypeId: string)
    | MissingStreamId(blockTypeId: string)
    | MissingTransport(blockTypeId: string)
    | UnsupportedTransport(transport: string)
    | MissingPayloadFormat(blockTypeId: string)
    | DuplicateStreamId(streamId: string)

  predicate TransportSupported(transport: string) {
    transport in ["http_snapshot", "http_poll", "websocket"]
  }

  function StreamPath(sessionId: string, streamId: string, transport: string): string {
    "/sessions/" + sessionId + "/streams/" + streamId + (if transport == "websocket" then "/ws" else "/http")
  }

  /** The nested form under "stream" wins; otherwise the flattened keys declare a stream together. */
  function NormalizeStreamIntent(parameters: PropertyMap): StreamIntent {
    if "stream" in parameters then
      var stream := MapAt(parameters, "stream");
      StreamIntent(true, StringAt(stream, "id"), StringAt(stream, "transport"), StringAt(stream, "payload_format"))
    else
      var id := StringAt(parameters, "stream_id");
      var transport := StringAt(parameters, "transport");
      var format := StringAt(parameters, "payload_format");
      StreamIntent(id.Some? || transport.Some? || format.Some?, id, transport, format)
  }

  function BlockTypeId(block: PropertyMap): Option<string> {
    if StringAt(block, "block").Some? then StringAt(block, "block")
    else if StringAt(block, "id").Some? then StringAt(block, "id")
    else StringAt(block, "block_type")
  }

  /** The first of the block's own name keys that holds a non-empty string. */
  function OwnName(block: PropertyMap): Option<string> {
    if !Blank(StringAt(block, "instance_name")) then StringAt(block, "instance_name")
    else if !Blank(StringAt(block, "name")) then StringAt(block, "name")
    else None
  }

  /** The planner's idea of a block's name: empty when nothing names the block. */
  function PlannedName(block: PropertyMap): string {
    var named := StringAt(MergedParameters(block), "name");
    if !Blank(named) then named.value
    else if !Blank(StringAt(block, "id")) && "block" in block then StringAt(block, "id").value
    else if OwnName(block).Some? then OwnName(block).value
    else ""
  }

  function NormalizeStreamBlock(block: PropertyMap): Option<NormalizedBlock> {
    if Blank(BlockTypeId(block)) then None
    else Some(NormalizedBlock(BlockTypeId(block).value, PlannedName(block), NormalizeStreamIntent(MergedParameters(block))))
  }

  function StreamIdOf(block: NormalizedBlock): string {
    if !Blank(block.stream.streamId) then block.stream.streamId.value else block.instanceName
  }

  function PlanFor(sessionId: string, block: NormalizedBlock): StreamPlan {
    var transport := if block.stream.transport.Some? then block.stream.transport.value else "";
    var format := if block.stream.payloadFormat.Some? then block.stream.payloadFormat.value else "";
    StreamPlan(StreamIdOf(block), block.instanceName, transport, format,
               StreamPath(sessionId, StreamIdOf(block), transport), true)
  }

  /** What one declared block is told it lacks, given the stream ids taken by earlier blocks. */
  function BlockError(block: NormalizedBlock, seen: set<string>): Option<ContractError> {
    if !block.stream.declared then None
    else if block.instanceName == "" then Some(MissingInstanceName(block.blockTypeId))
    else if StreamIdOf(block) == "" then Some(MissingStreamId(block.blockTypeId))
    else if Blank(block.stream.transport) then Some(MissingTransport(block.blockTypeId))
    else if !TransportSupported(block.stream.transport.value) then Some(UnsupportedTransport(block.stream.transport.value))
    else if Blank(block.stream.payloadFormat) then Some(MissingPayloadFormat(block.blockTypeId))
    else if StreamIdOf(block) in seen then Some(DuplicateStreamId(StreamIdOf(block)))
    else None
  }

  // ----- the two walks over a graph, stated without their loops -----

  /** The block at one place of a graph's block list, if it declares a stream. */
  function ManagedBlock(item: Value): (managed: Option<NormalizedBlock>)
    ensures managed.Some? ==> managed.value.stream.declared
  {
    if !item.MapValue? then None
    else match NormalizeStreamBlock(item.fields)
      case Some(block) => if block.stream.declared then Some(block) else None
      case None => None
  }

  /** The declared blocks of a graph, in block order. */
  function Declared(items: seq<Value>): seq<NormalizedBlock> {
    if items == [] then []
    else match ManagedBlock(items[0])
      case Some(block) => [block] + Declared(items[1..])
      case None => Declared(items[1..])
  }

  /** The first complaint along a list of declared blocks. */
  function FirstError(blocks: seq<NormalizedBlock>, seen: set<string>): Option<ContractError> {
    if blocks == [] then None
    else match BlockError(blocks[0], seen)
      case Some(error) => Some(error)
      case None => FirstError(blocks[1..], seen + {StreamIdOf(blocks[0])})
  }

  /** The block list of a session's graph: absent when the text does not parse or has no block tensor. */
  function ReadableBlocks(yaml: Yaml, session: Session): Option<seq<Value>> {
    match yaml(session.grcContent)
    case None => None
    case Some(root) => ItemsAt(root, "blocks")
  }

  function DeclaredIn(yaml: Yaml, session: Session): seq<NormalizedBlock> {
    match ReadableBlocks(yaml, session)
    case None => []
    case Some(items) => Declared(items)
  }

  function ContractErrorOf(yaml: Yaml, session: Session): Option<ContractError> {
    FirstError(DeclaredIn(yaml, session), {})
  }

  function PlansFor(sessionId: string, blocks: seq<NormalizedBlock>): (plans: seq<StreamPlan>)
    ensures |plans| == |blocks|
  {
    seq(|blocks|, i requires 0 <= i < |blocks| => PlanFor(sessionId, blocks[i]))
  }

  function RuntimePlan(yaml: Yaml, session: Session): Option<seq<StreamPlan>> {
    var blocks := DeclaredIn(yaml, session);
    if blocks == [] || FirstError(blocks, {}).Some? then None else Some(PlansFor(session.id, blocks))
  }

  /** The streams a session is prepared with: none where there is no plan. */
  function PlannedStreams(yaml: Yaml, session: Session): seq<StreamPlan> {
    match RuntimePlan(yaml, session)
    case Some(streams) => streams
    case None => []
  }

  lemma DeclaredStep(items: seq<Value>, i: nat)
    requires i < |items|
    ensures Declared(items[i..]) == match ManagedBlock(items[i])
                                      case Some(block) => [block] + Declared(items[i + 1..])
                                      case None => Declared(items[i + 1..])
  {
    assert items[i..][1..] == items[i + 1..];
  }

  lemma FirstErrorStep(block: NormalizedBlock, rest: seq<NormalizedBlock>, seen: set<string>)
    ensures FirstError([block] + rest, seen)
         == match BlockError(block, seen)
            case Some(error) => Some(error)
            case None => FirstError(rest, seen + {StreamIdOf(block)})
  {
    assert ([block] + rest)[1..] == rest;
  }

  lemma PlansForStep(sessionId: string, blocks: seq<NormalizedBlock>, block: NormalizedBlock)
    ensures PlansFor(sessionId, blocks + [block]) == PlansFor(sessionId, blocks) + [PlanFor(sessionId, block)]
  {
  }

  lemma NothingDeclared(sessionId: string)
    ensures Declared([]) == [] && PlansFor(sessionId, []) == []
    ensures forall seen :: FirstError([], seen) == None
  {
  }

  // ----- the walks as the code runs them -----

  method ValidateStreamBlock(block: NormalizedBlock, seen: set<string>)
    returns (error: Option<ContractError>, seenAfter: set<string>)
    ensures error == BlockError(block, seen)
    ensures seenAfter == if block.stream.declared && error.None? then seen + {StreamIdOf(block)} else seen
  {
    seenAfter := seen;
    if !block.stream.declared { return None, seen; }
    if block.instanceName == "" { return Some(MissingInstanceName(block.blockTypeId)), seen; }
    var streamId := if block.stream.streamId.Some? && block.stream.streamId.value != "" then block.stream.streamId.value
                    else block.instanceName;
    if streamId == "" { return Some(MissingStreamId(block.blockTypeId)), seen; }
    if block.stream.transport.None? || block.stream.transport.value == "" {
      return Some(MissingTransport(block.blockTypeId)), seen;
    }
    if !TransportSupported(block.stream.transport.value) {
      return Some(UnsupportedTransport(block.stream.transport.value)), seen;
    }
    if block.stream.payloadFormat.None? || block.stream.payloadFormat.value == "" {
      return Some(MissingPayloadFormat(block.blockTypeId)), seen;
    }
    if streamId in seen { return Some(DuplicateStreamId(streamId)), seen; }
    return None, seen + {streamId};
  }

  method DeriveStreamRuntimePlan(yaml: Yaml, session: Session) returns (plan: Option<seq<StreamPlan>>)
    ensures plan == RuntimePlan(yaml, session)
  {
    hide NormalizeStreamBlock, ManagedBlock, PlanFor, BlockError, Declared, FirstError, PlansFor;
    var blocks := ReadableBlocks(yaml, session);
    if blocks.None? { return None; }
    var items := blocks.value;
    var streams: seq<StreamPlan> := [];
    NothingDeclared(session.id);
    assert items[0..] == items;
    var seen: set<string> := {};
    ghost var all, declared := Declared(items), [];
    var i := 0;
    while i < |items|
      invariant 0 <= i <= |items|
      invariant all == declared + Declared(items[i..])
      invariant FirstError(all, {}) == FirstError(Declared(items[i..]), seen)
      invariant streams == PlansFor(session.id, declared)
    {
      ghost var rest := Declared(items[i + 1..]);
      DeclaredStep(items, i);
      var managed := ManagedBlock(items[i]);
      if managed.Some? {
        var block := managed.value;
        var error, seenAfter := ValidateStreamBlock(block, seen);
        FirstErrorStep(block, rest, seen);
        if error.Some? { return None; }
        PlansForStep(session.id, declared, block);
        declared, seen := declared + [block], seenAfter;
        streams := streams + [PlanFor(session.id, block)];
      }
      i := i + 1;
    }
    assert items[i..] == [] && all == declared;
    if streams == [] { return None; }
    return Some(streams);
  }

  method ValidateStreamRuntimeContract(yaml: Yaml, session: Session) returns (error: Option<ContractError>)
    ensures error == ContractErrorOf(yaml, session)
  {
    hide NormalizeStreamBlock, ManagedBlock, PlanFor, BlockError, Declared, FirstError;
    NothingDeclared(session.id);
    var blocks := ReadableBlocks(yaml, session);
    if blocks.None? { return None; }
    var items := blocks.value;
    assert items[0..] == items;
    var seen: set<string> := {};
    var i := 0;
    while i < |items|
      invariant 0 <= i <= |items|
      invariant FirstError(Declared(items), {}) == FirstError(Declared(items[i..]), seen)
    {
      DeclaredStep(items, i);
      var managed := ManagedBlock(items[i]);
      if managed.Some? {
        FirstErrorStep(managed.value, Declared(items[i + 1..]), seen);
        var blockError, seenAfter := ValidateStreamBlock(managed.value, seen);
        if blockError.Some? { return blockError; }
        seen := seenAfter;
      }
      i := i + 1;
    }
    assert items[i..] == [];
    return None;
  }
}
