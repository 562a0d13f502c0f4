/**
 * What the two walks of SessionStreams promise together: the contract check and the plan agree on
 * every graph, and an accepted plan names every declared block once, in order, without clashes.
 */
module StreamContract {
  import opened Common
  import opened Pmt
  import opened Sessions
  import opened SessionStreams

  /** What one declared block must state, with no reference to the order of the checks. */
  predicate Complete(block: NormalizedBlock) {
    && block.instanceName != ""
    && block.stream.transport in [Some("http_snapshot"), Some("http_poll"), Some("websocket")]
    && !Blank(block.stream.payloadFormat)
  }

  /** The contract of a whole graph: complete blocks, no stream id twice, none already taken. */
  ghost predicate ContractHolds(blocks: seq<NormalizedBlock>, taken: set<string>) {
    && (forall i :: 0 <= i < |blocks| ==> Complete(blocks[i]) && StreamIdOf(blocks[i]) !in taken)
    && (forall i, j :: 0 <= i < j < |blocks| ==> StreamIdOf(blocks[i]) != StreamIdOf(blocks[j]))
  }

  lemma {:induction false} NoErrorIffContract(blocks: seq<NormalizedBlock>, taken: set<string>)
    requires forall i :: 0 <= i < |blocks| ==> blocks[i].stream.declared
    ensures FirstError(blocks, taken).None? <==> ContractHolds(blocks, taken)
  {
    if blocks != [] {
      var head, rest := blocks[0], blocks[1..];
      hide TransportSupported;
      NoErrorIffContract(rest, taken + {StreamIdOf(head)});
      if ContractHolds(blocks, taken) {
        assert forall i :: 0 <= i < |rest| ==> rest[i] == blocks[i + 1];
      }
      if FirstError(blocks, taken).None? {
        assert forall i :: 1 <= i < |blocks| ==> blocks[i] == rest[i - 1];
      }
    }
  }

  lemma DeclaredOfNothing()
    ensures Declared([]) == []
  {
  }

  /**
   * The declared blocks are the managed places of the block list, each once and in list order:
   * `at` gives the place of each.
   */
  lemma DeclaredInOrder(items: seq<Value>) returns (at: seq<nat>)
    ensures |at| == |Declared(items)|
    ensures forall j :: 0 <= j < |at| ==>
        at[j] < |items| && ManagedBlock(items[at[j]]) == Some(Declared(items)[j]) && Declared(items)[j].stream.declared
    ensures forall j, k :: 0 <= j < k < |at| ==> at[j] < at[k]
    ensures forall i :: 0 <= i < |items| && ManagedBlock(items[i]).Some? ==> i in at
  {
    hide ManagedBlock, Declared;
    DeclaredOfNothing();
    at := [];
    var found: seq<NormalizedBlock> := [];
    assert items[0..] == items;
    for i := 0 to |items|
      invariant Declared(items) == found + Declared(items[i..]) && |found| == |at|
      invariant forall j :: 0 <= j < |at| ==>
          at[j] < i && ManagedBlock(items[at[j]]) == Some(found[j]) && found[j].stream.declared
      invariant forall j, k :: 0 <= j < k < |at| ==> at[j] < at[k]
      invariant forall k :: 0 <= k < i && ManagedBlock(items[k]).Some? ==> k in at
    {
      DeclaredStep(items, i);
      var managed := ManagedBlock(items[i]);
      if managed.Some? {
        assert i in at + [i] && forall k :: k in at ==> k in at + [i];
        found, at := found + [managed.value], at + [i];
      }
    }
    assert items[|items|..] == [];
    assert Declared(items) == found;
  }

  lemma DeclaredAreDeclared(items: seq<Value>)
    ensures forall j :: 0 <= j < |Declared(items)| ==> Declared(items)[j].stream.declared
  {
    var _ := DeclaredInOrder(items);
  }

  /** Paths of one session clash only for the same stream id and the same kind of route. */
  lemma PathsAreInjective(sessionId: string, id1: string, transport1: string, id2: string, transport2: string)
    requires StreamPath(sessionId, id1, transport1) == StreamPath(sessionId, id2, transport2)
    ensures id1 == id2 && (transport1 == "websocket" <==> transport2 == "websocket")
  {
    var head := "/sessions/" + sessionId + "/streams/";
    var tail1 := if transport1 == "websocket" then "/ws" else "/http";
    var tail2 := if transport2 == "websocket" then "/ws" else "/http";
    var path1, path2 := StreamPath(sessionId, id1, transport1), StreamPath(sessionId, id2, transport2);
    assert path1 == head + (id1 + tail1) && path2 == head + (id2 + tail2);
    assert path1[|head|..] == id1 + tail1 && path2[|head|..] == id2 + tail2;
    var text1, text2 := id1 + tail1, id2 + tail2;
    assert text1[|text1| - 1] == tail1[|tail1| - 1] && text2[|text2| - 1] == tail2[|tail2| - 1];
    assert tail1 == tail2;
    assert id1 == text1[..|text1| - |tail1|] && id2 == text2[..|text2| - |tail2|];
  }

  ghost predicate PlanIsSound(sessionId: string, plan: seq<StreamPlan>) {
    && (forall i :: 0 <= i < |plan| ==>
          && plan[i].streamId != "" && plan[i].blockInstanceName != "" && plan[i].payloadFormat != ""
          && TransportSupported(plan[i].transport)
          && plan[i].path == StreamPath(sessionId, plan[i].streamId, plan[i].transport)
          && plan[i].ready)
    && (forall i, j :: 0 <= i < j < |plan| ==> plan[i].streamId != plan[j].streamId)
    && (forall i, j :: 0 <= i < j < |plan| ==> plan[i].path != plan[j].path)
  }

  /**
   * Contract check and plan derivation agree on every graph. A complaint means no plan; without one
   * there is a plan unless nothing is declared, and it has one stream for each declared block, in
   * block order, with supported transports and pairwise distinct ids and paths.
   */
  lemma ValidationAgreesWithDerivation(yaml: Yaml, session: Session)
    ensures ContractErrorOf(yaml, session).None? <==> ContractHolds(DeclaredIn(yaml, session), {})
    ensures ContractErrorOf(yaml, session).Some? ==> RuntimePlan(yaml, session).None?
    ensures ContractErrorOf(yaml, session).None? ==>
        (RuntimePlan(yaml, session).None? <==> DeclaredIn(yaml, session) == [])
    ensures RuntimePlan(yaml, session).Some? ==>
        var plan, blocks := RuntimePlan(yaml, session).value, DeclaredIn(yaml, session);
        && |plan| == |blocks| > 0
        && (forall i :: 0 <= i < |plan| ==>
              && plan[i].streamId == StreamIdOf(blocks[i])
              && plan[i].blockInstanceName == blocks[i].instanceName
              && Some(plan[i].transport) == blocks[i].stream.transport
              && Some(plan[i].payloadFormat) == blocks[i].stream.payloadFormat)
        && PlanIsSound(session.id, plan)
  {
    var blocks := DeclaredIn(yaml, session);
    if ReadableBlocks(yaml, session).Some? {
      DeclaredAreDeclared(ReadableBlocks(yaml, session).value);
    }
    NoErrorIffContract(blocks, {});
    if RuntimePlan(yaml, session).Some? {
      PlanOfContract(session.id, blocks);
    }
  }

  lemma PlanOfContract(sessionId: string, blocks: seq<NormalizedBlock>)
    requires ContractHolds(blocks, {})
    ensures PlanIsSound(sessionId, PlansFor(sessionId, blocks))
  {
    var plan := PlansFor(sessionId, blocks);
    hide StreamPath;
    forall i, j | 0 <= i < j < |plan| ensures plan[i].path != plan[j].path {
      assert plan[i].streamId != plan[j].streamId;
      if plan[i].path == plan[j].path {
        PathsAreInjective(sessionId, plan[i].streamId, plan[i].transport, plan[j].streamId, plan[j].transport);
      }
    }
  }
}
