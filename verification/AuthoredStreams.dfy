/**
 * Plan and contract in terms of the blocks as they were authored: which blocks ask for a stream, which
 * stream each of them gets, and what is wrong with a graph that is refused.
 */
module AuthoredStreams {
  import opened Common
  import opened Pmt
  import opened Sessions
  import opened SessionStreams
  import opened StreamContract

  // ----- reading a block -----

  function AuthoredText(block: PropertyMap, parameter: string): Option<string> {
    match Authored(block, parameter)
    case Some(StringValue(text)) => Some(text)
    case _ => None
  }

  /** A text in a value that is a map. */
  function TextIn(value: Value, key: string): Option<string> {
    if value.MapValue? then StringAt(value.fields, key) else None
  }

  /** A text about the stream: from the map under "stream" if there is such a parameter, else from a parameter of its own. */
  function StreamText(block: PropertyMap, nested: string, flat: string): Option<string> {
    match Authored(block, "stream")
    case None => AuthoredText(block, flat)
    case Some(stream) => TextIn(stream, nested)
  }

  function Usable(text: Option<string>, otherwise: string): string {
    match text case Some(usable) => if usable != "" then usable else otherwise case None => otherwise
  }

  /** The first of the type keys that holds a text. */
  function TypeOf(block: PropertyMap): Option<string> {
    match (StringAt(block, "block"), StringAt(block, "id"))
    case (Some(text), _) => Some(text)
    case (None, Some(text)) => Some(text)
    case (None, None) => StringAt(block, "block_type")
  }

  function NameOf(block: PropertyMap): string {
    Usable(AuthoredText(block, "name"),
           Usable(if "block" in block then StringAt(block, "id") else None,
                  Usable(StringAt(block, "instance_name"), Usable(StringAt(block, "name"), ""))))
  }

  function IdOf(block: PropertyMap): string {
    Usable(StreamText(block, "id", "stream_id"), NameOf(block))
  }

  /** The block has a type, and a "stream" parameter or a text for one of the flat ones. */
  predicate AsksForStream(item: Value) {
    && item.MapValue? && TypeOf(item.fields).Some? && TypeOf(item.fields).value != ""
    && (|| Authored(item.fields, "stream").Some?
        || AuthoredText(item.fields, "stream_id").Some?
        || AuthoredText(item.fields, "transport").Some?
        || AuthoredText(item.fields, "payload_format").Some?)
  }

  /** What the contract asks of such a block. */
  predicate IsComplete(block: PropertyMap) {
    && NameOf(block) != ""
    && StreamText(block, "transport", "transport") in [Some("http_snapshot"), Some("http_poll"), Some("websocket")]
    && StreamText(block, "payload_format", "payload_format").Some?
    && StreamText(block, "payload_format", "payload_format") != Some("")
  }

  /** The stream that such a block gets. */
  predicate IsStreamOf(sessionId: string, block: PropertyMap, stream: StreamPlan) {
    && stream.streamId == IdOf(block) && stream.blockInstanceName == NameOf(block)
    && Some(stream.transport) == StreamText(block, "transport", "transport")
    && Some(stream.payloadFormat) == StreamText(block, "payload_format", "payload_format")
    && stream.path == "/sessions/" + sessionId + "/streams/" + IdOf(block)
                      + (if stream.transport == "websocket" then "/ws" else "/http")
    && stream.ready
  }

  lemma MergedIsAuthored(block: PropertyMap)
    ensures forall parameter :: At(MergedParameters(block), parameter) == Authored(block, parameter)
    ensures forall parameter :: StringAt(MergedParameters(block), parameter) == AuthoredText(block, parameter)
  {
  }

  lemma NestedIsAuthored(block: PropertyMap)
    ensures "stream" in MergedParameters(block) <==> Authored(block, "stream").Some?
    ensures Authored(block, "stream").Some? ==>
      forall key :: StringAt(MapAt(MergedParameters(block), "stream"), key) == TextIn(Authored(block, "stream").value, key)
  {
  }

  /** What the planner makes of one place of the block list. */
  lemma ManagedBlockMeans(item: Value)
    ensures ManagedBlock(item).Some? <==> AsksForStream(item)
    ensures ManagedBlock(item).Some? ==> item.MapValue?
    ensures ManagedBlock(item).Some? ==>
      var managed, block := ManagedBlock(item).value, item.fields;
      && Some(managed.blockTypeId) == TypeOf(block) && managed.instanceName == NameOf(block) && StreamIdOf(managed) == IdOf(block)
      && managed.stream.transport == StreamText(block, "transport", "transport")
      && managed.stream.payloadFormat == StreamText(block, "payload_format", "payload_format")
      && (Complete(managed) <==> IsComplete(block))
  {
    if item.MapValue? {
      MergedIsAuthored(item.fields);
      NestedIsAuthored(item.fields);
      hide MergedParameters, Authored;
    }
  }

  // ----- the plan -----

  /** The authored blocks of a session's graph, if it has a readable list of them. */
  function AuthoredBlocks(yaml: Yaml, session: Session): seq<Value> {
    match yaml(session.grcContent)
    case Some(root) => (match At(root, "blocks") case Some(TensorValue(items)) => items case _ => [])
    case None => []
  }

  lemma DeclaredAreAuthored(yaml: Yaml, session: Session)
    ensures DeclaredIn(yaml, session) == Declared(AuthoredBlocks(yaml, session))
  {
    hide ManagedBlock;
  }

  /** The contract holds exactly if every block that asks for a stream is complete and no two get the same stream id. */
  lemma ContractMeans(yaml: Yaml, session: Session)
    ensures ContractErrorOf(yaml, session).None? <==>
      var items := AuthoredBlocks(yaml, session);
      && (forall k :: 0 <= k < |items| && AsksForStream(items[k]) ==> IsComplete(items[k].fields))
      && (forall j, k :: 0 <= j < k < |items| && AsksForStream(items[j]) && AsksForStream(items[k]) ==>
            IdOf(items[j].fields) != IdOf(items[k].fields))
  {
    var items, declared := AuthoredBlocks(yaml, session), DeclaredIn(yaml, session);
    DeclaredAreAuthored(yaml, session);
    ValidationAgreesWithDerivation(yaml, session);
    hide ContractErrorOf, RuntimePlan, AuthoredBlocks, DeclaredIn, Declared, ManagedBlock, AsksForStream, IsComplete,
         Complete, IdOf, StreamIdOf;
    var at := DeclaredInOrder(items);
    forall k | 0 <= k < |items|
      ensures ManagedBlock(items[k]).Some? <==> AsksForStream(items[k])
      ensures ManagedBlock(items[k]).Some? ==>
        && items[k].MapValue? && StreamIdOf(ManagedBlock(items[k]).value) == IdOf(items[k].fields)
        && (Complete(ManagedBlock(items[k]).value) <==> IsComplete(items[k].fields))
    {
      ManagedBlockMeans(items[k]);
    }
    PlacesAgree(items, declared, at);
  }

  lemma PlacesAgree(items: seq<Value>, declared: seq<NormalizedBlock>, at: seq<nat>)
    requires |at| == |declared|
    requires forall j :: 0 <= j < |at| ==> at[j] < |items| && ManagedBlock(items[at[j]]) == Some(declared[j])
    requires forall j, k :: 0 <= j < k < |at| ==> at[j] < at[k]
    requires forall i :: 0 <= i < |items| && ManagedBlock(items[i]).Some? ==> i in at
    requires forall k :: 0 <= k < |items| ==> (ManagedBlock(items[k]).Some? <==> AsksForStream(items[k]))
    requires forall k :: 0 <= k < |items| && ManagedBlock(items[k]).Some? ==>
        && items[k].MapValue? && StreamIdOf(ManagedBlock(items[k]).value) == IdOf(items[k].fields)
        && (Complete(ManagedBlock(items[k]).value) <==> IsComplete(items[k].fields))
    ensures ContractHolds(declared, {}) <==>
      && (forall k :: 0 <= k < |items| && AsksForStream(items[k]) ==> IsComplete(items[k].fields))
      && (forall j, k :: 0 <= j < k < |items| && AsksForStream(items[j]) && AsksForStream(items[k]) ==>
            IdOf(items[j].fields) != IdOf(items[k].fields))
  {
    hide ManagedBlock, AsksForStream, IsComplete, Complete, IdOf, StreamIdOf;
    if ContractHolds(declared, {}) {
      forall k | 0 <= k < |items| && AsksForStream(items[k]) ensures IsComplete(items[k].fields) {
        var i :| 0 <= i < |at| && at[i] == k;
        assert ManagedBlock(items[at[i]]) == Some(declared[i]);
      }
      forall j, k | 0 <= j < k < |items| && AsksForStream(items[j]) && AsksForStream(items[k])
        ensures IdOf(items[j].fields) != IdOf(items[k].fields)
      {
        var p :| 0 <= p < |at| && at[p] == j;
        var q :| 0 <= q < |at| && at[q] == k;
        assert ManagedBlock(items[at[p]]) == Some(declared[p]) && ManagedBlock(items[at[q]]) == Some(declared[q]);
        assert p < q;
      }
    } else {
      if i :| 0 <= i < |declared| && !Complete(declared[i]) {
        assert ManagedBlock(items[at[i]]) == Some(declared[i]) && !IsComplete(items[at[i]].fields);
      } else {
        var i, j :| 0 <= i < j < |declared| && StreamIdOf(declared[i]) == StreamIdOf(declared[j]);
        assert ManagedBlock(items[at[i]]) == Some(declared[i]) && ManagedBlock(items[at[j]]) == Some(declared[j]);
        assert IdOf(items[at[i]].fields) == IdOf(items[at[j]].fields) && at[i] < at[j];
      }
    }
  }

  /**
   * A session has a plan exactly if some block asks for a stream and the contract holds; the plan has the
   * stream of each such block, in block order: `at` gives the places of the blocks.
   */
  lemma PlanMeans(yaml: Yaml, session: Session) returns (at: seq<nat>)
    ensures var items := AuthoredBlocks(yaml, session);
      RuntimePlan(yaml, session).Some? <==>
        ContractErrorOf(yaml, session).None? && exists k :: 0 <= k < |items| && AsksForStream(items[k])
    ensures RuntimePlan(yaml, session).Some? ==>
      var items, plan := AuthoredBlocks(yaml, session), RuntimePlan(yaml, session).value;
      && |at| == |plan| && (forall i, j :: 0 <= i < j < |at| ==> at[i] < at[j])
      && (forall i :: 0 <= i < |at| ==>
            && at[i] < |items| && AsksForStream(items[at[i]]) && IsStreamOf(session.id, items[at[i]].fields, plan[i]))
      && (forall k :: 0 <= k < |items| && AsksForStream(items[k]) ==> k in at)
  {
    var items, declared := AuthoredBlocks(yaml, session), DeclaredIn(yaml, session);
    DeclaredAreAuthored(yaml, session);
    ValidationAgreesWithDerivation(yaml, session);
    at := DeclaredInOrder(items);
    forall k | 0 <= k < |items| ensures ManagedBlock(items[k]).Some? <==> AsksForStream(items[k]) { ManagedBlockMeans(items[k]); }
    hide AuthoredBlocks, DeclaredIn, Declared, ManagedBlock, AsksForStream, IsStreamOf, FirstError;
    if declared != [] { assert ManagedBlock(items[at[0]]).Some?; }
    if RuntimePlan(yaml, session).Some? {
      var plan := RuntimePlan(yaml, session).value;
      forall i | 0 <= i < |at| ensures AsksForStream(items[at[i]]) && IsStreamOf(session.id, items[at[i]].fields, plan[i]) {
        PlannedMeans(session.id, items[at[i]], declared[i]);
        assert plan[i] == PlanFor(session.id, declared[i]);
        assert Complete(declared[i]);
      }
    }
  }

  lemma PlannedMeans(sessionId: string, item: Value, declared: NormalizedBlock)
    requires ManagedBlock(item) == Some(declared)
    ensures AsksForStream(item) && (Complete(declared) ==> IsStreamOf(sessionId, item.fields, PlanFor(sessionId, declared)))
  {
    ManagedBlockMeans(item);
    hide ManagedBlock, AsksForStream, StreamIdOf, IdOf, NameOf, StreamText;
  }

  // ----- complaints -----

  /** What is wrong with the block at place `k` of the declared ones, all earlier ones being in order. */
  ghost predicate IsWrongAt(blocks: seq<NormalizedBlock>, k: nat, error: ContractError)
    requires k < |blocks|
  {
    var block := blocks[k];
    var transport, format := block.stream.transport, block.stream.payloadFormat;
    match error
    case MissingInstanceName(blockTypeId) => block.instanceName == "" && blockTypeId == block.blockTypeId
    case MissingStreamId(_) => false
    case MissingTransport(blockTypeId) =>
      block.instanceName != "" && (transport.None? || transport == Some("")) && blockTypeId == block.blockTypeId
    case UnsupportedTransport(named) =>
      block.instanceName != "" && transport == Some(named) && named !in ["", "http_snapshot", "http_poll", "websocket"]
    case MissingPayloadFormat(blockTypeId) =>
      && block.instanceName != "" && transport in [Some("http_snapshot"), Some("http_poll"), Some("websocket")]
      && (format.None? || format == Some("")) && blockTypeId == block.blockTypeId
    case DuplicateStreamId(streamId) =>
      Complete(block) && StreamIdOf(block) == streamId && exists j :: 0 <= j < k && StreamIdOf(blocks[j]) == streamId
  }

  lemma BlockErrorMeans(block: NormalizedBlock, seen: set<string>, error: ContractError)
    requires block.stream.declared
    ensures BlockError(block, seen) == Some(error) <==>
      match error
      case DuplicateStreamId(streamId) => Complete(block) && StreamIdOf(block) == streamId && streamId in seen
      case _ => IsWrongAt([block], 0, error)
  {
  }

  function IdsOf(blocks: seq<NormalizedBlock>): set<string> {
    set k | 0 <= k < |blocks| :: StreamIdOf(blocks[k])
  }

  /**
   * The complaint about a session is about the first declared block that is not in order, and says what is
   * wrong with it; that a stream id is missing is never said, since a block without one goes by its name.
   */
  lemma ComplaintIsTheFirst(yaml: Yaml, session: Session, error: ContractError)
    ensures var blocks := DeclaredIn(yaml, session);
      ContractErrorOf(yaml, session) == Some(error) <==>
        exists k :: 0 <= k < |blocks| && ContractHolds(blocks[..k], {}) && IsWrongAt(blocks, k, error)
  {
    hide Complete, StreamIdOf, FirstError, IsWrongAt, Declared;
    var blocks := DeclaredIn(yaml, session);
    if ReadableBlocks(yaml, session).Some? { DeclaredAreDeclared(ReadableBlocks(yaml, session).value); }
    assert blocks[0..] == blocks && blocks[..0] == [] && IdsOf(blocks[..0]) == {};
    ComplaintMeans(blocks, 0, error);
  }

  lemma {:induction false} ComplaintMeans(blocks: seq<NormalizedBlock>, done: nat, error: ContractError)
    requires done <= |blocks| && ContractHolds(blocks[..done], {})
    requires forall k :: 0 <= k < |blocks| ==> blocks[k].stream.declared
    ensures FirstError(blocks[done..], IdsOf(blocks[..done])) == Some(error) <==>
      exists k :: done <= k < |blocks| && ContractHolds(blocks[..k], {}) && IsWrongAt(blocks, k, error)
    decreases |blocks| - done
  {
    hide Complete, StreamIdOf, BlockError, IsWrongAt;
    if done == |blocks| {
      assert blocks[done..] == [];
    } else {
      var seen := IdsOf(blocks[..done]);
      WrongHere(blocks, done, error);
      NothingWrongHere(blocks, done);
      assert blocks[done..][0] == blocks[done] && blocks[done..][1..] == blocks[done + 1..];
      if BlockError(blocks[done], seen).None? {
        ComplaintMeans(blocks, done + 1, error);
      } else {
        forall k | done < k < |blocks| ensures !ContractHolds(blocks[..k], {}) {
          if ContractHolds(blocks[..k], {}) { PrefixesHold(blocks, done + 1, k); }
        }
      }
    }
  }

  lemma PrefixesHold(blocks: seq<NormalizedBlock>, i: nat, k: nat)
    requires i <= k <= |blocks| && ContractHolds(blocks[..k], {})
    ensures ContractHolds(blocks[..i], {})
  {
    hide Complete, StreamIdOf;
    assert forall j :: 0 <= j < i ==> blocks[..i][j] == blocks[..k][j];
  }

  lemma NothingWrongHere(blocks: seq<NormalizedBlock>, k: nat)
    requires k < |blocks| && blocks[k].stream.declared && ContractHolds(blocks[..k], {})
    ensures BlockError(blocks[k], IdsOf(blocks[..k])).None? <==> ContractHolds(blocks[..k + 1], {})
    ensures IdsOf(blocks[..k + 1]) == IdsOf(blocks[..k]) + {StreamIdOf(blocks[k])}
  {
    assert BlockError(blocks[k], IdsOf(blocks[..k])).None? <==> Complete(blocks[k]) && StreamIdOf(blocks[k]) !in IdsOf(blocks[..k]);
    hide Complete, StreamIdOf, BlockError;
    var before, longer := blocks[..k], blocks[..k + 1];
    assert forall j :: 0 <= j < k ==> longer[j] == before[j];
    assert longer[k] == blocks[k];
  }

  lemma WrongHere(blocks: seq<NormalizedBlock>, k: nat, error: ContractError)
    requires k < |blocks| && blocks[k].stream.declared
    ensures BlockError(blocks[k], IdsOf(blocks[..k])) == Some(error) <==> IsWrongAt(blocks, k, error)
  {
    BlockErrorMeans(blocks[k], IdsOf(blocks[..k]), error);
  }
}
