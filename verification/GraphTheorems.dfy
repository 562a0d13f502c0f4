/**
 * What the graph rewriting guarantees: normal forms are stable, the injection reaches every planned
 * stream or fails, and planner and runtime agree on names exactly under a stated condition.
 */
module GraphTheorems {
  import opened Common
  import opened Digits
  import opened Pmt
  import opened Sessions
  import opened SessionStreams
  import opened StreamBindings
  import opened FlowGraphs
  import opened StreamContract

  // ----- normal forms -----

  /** The block has something to be named after, or no type that the first pass would write over its id. */
  predicate NamedOrUntyped(block: PropertyMap) {
    || "name" in MergedParameters(block)
    || !Blank(StringAt(block, "id"))
    || OwnName(block).Some?
    || (Blank(StringAt(block, "block")) && ("id" in block || Blank(StringAt(block, "block_type"))))
  }

  /**
   * Normalizing a block twice gives what normalizing it once gives, exactly if the authored block is
   * named or untyped in that sense. Otherwise the second pass takes the block type, which the first
   * pass has just written over the id, for an authored id.
   */
  lemma NormalizeBlockIsStableIff(block: PropertyMap)
    ensures NormalizeBlock(NormalizeBlock(block)) == NormalizeBlock(block) <==> NamedOrUntyped(block)
  {
    SecondPassIsStableIff(block);
    hide NormalizeBlock;
    NormalizedId(block);
  }

  lemma NormalizedId(block: PropertyMap)
    ensures StringAt(NormalizeBlock(block), "id") == StringAt(WithTypeId(block), "id")
  {
  }

  lemma SecondPassIsStableIff(block: PropertyMap)
    ensures NormalizeBlock(NormalizeBlock(block)) == NormalizeBlock(block)
        <==> "name" in NamedParameters(block) || Blank(StringAt(NormalizeBlock(block), "id"))
  {
    var once := NormalizeBlock(block);
    var parameters := NamedParameters(block);
    assert MapAt(once, "parameters") == parameters;
    assert MapAt(once, "raw_parameters") == MapAt(block, "raw_parameters");
    assert MergedParameters(once) == parameters;
    assert WithTypeId(once) == once;
    assert OwnName(once) == OwnName(block);
    if "name" in parameters || Blank(StringAt(once, "id")) {
      assert NamedParameters(once) == parameters;
      assert parameters != map[] ==> once["parameters" := MapValue(parameters)] == once;
    } else {
      assert "name" in NamedParameters(once);
      assert MapAt(NormalizeBlock(once), "parameters") == NamedParameters(once);
    }
  }

  /** A block that only names its type is such a block: the second pass invents a name for it. */
  lemma NormalizeBlockIsNotAlwaysStable()
    ensures var block := map["block" := StringValue("T")];
      && NormalizeBlock(block) == block["id" := StringValue("T")]
      && NormalizeBlock(NormalizeBlock(block)) != NormalizeBlock(block)
  {
    var block := map["block" := StringValue("T")];
    assert MergedParameters(block) == map[];
    assert NamedParameters(block) == map[];
    NormalizeBlockIsStableIff(block);
  }

  lemma NormalizedPortIsStable(port: Value)
    requires NormalizeEnd(port).Ok?
    ensures NormalizeEnd(NormalizeEnd(port).value) == NormalizeEnd(port)
  {
    hide AllDigits, AfterLastT, Number;
  }

  /** Normalizing a connection twice gives what normalizing it once gives. */
  lemma NormalizeConnectionIsStable(connection: Value)
    requires NormalizeConnection(connection).Ok?
    ensures NormalizeConnection(NormalizeConnection(connection).value) == NormalizeConnection(connection)
  {
    hide NormalizePort;
    var once := NormalizeConnection(connection).value;
    if connection.TensorValue? && |connection.items| >= 4 {
      NormalizedPortIsStable(connection.items[1]);
      NormalizedPortIsStable(connection.items[3]);
      var items := connection.items;
      assert once.items[1] == NormalizeEnd(items[1]).value && once.items[3] == NormalizeEnd(items[3]).value;
      assert once.items == once.items[1 := once.items[1]][3 := once.items[3]];
    } else if once.TensorValue? && connection.MapValue? {
      var fields := connection.fields;
      NormalizedPortIsStable(fields["source_port_token"]);
      NormalizedPortIsStable(fields["dest_port_token"]);
      assert once.items == once.items[1 := once.items[1]][3 := once.items[3]];
    }
  }

  /** The map form and the sequence form of one connection have the same normal form, or both fail. */
  lemma MapAndSequenceFormsAgree(source: string, sourcePort: string, dest: string, destPort: string, fields: PropertyMap)
    requires StringAt(fields, "source_block") == Some(source) && StringAt(fields, "source_port_token") == Some(sourcePort)
    requires StringAt(fields, "dest_block") == Some(dest) && StringAt(fields, "dest_port_token") == Some(destPort)
    ensures NormalizeConnection(MapValue(fields))
         == NormalizeConnection(TensorValue([StringValue(source), StringValue(sourcePort), StringValue(dest), StringValue(destPort)]))
  {
    hide NormalizePort;
    var items := [StringValue(source), StringValue(sourcePort), StringValue(dest), StringValue(destPort)];
    if NormalizePort(sourcePort).Ok? && NormalizePort(destPort).Ok? {
      assert items[1 := NormalizePort(sourcePort).value][3 := NormalizePort(destPort).value]
          == [items[0], NormalizePort(sourcePort).value, items[2], NormalizePort(destPort).value];
    }
  }

  lemma {:induction false} AfterLastTOfDigits(head: string, digits: string)
    requires forall i :: 0 <= i < |digits| ==> IsDigit(digits[i])
    ensures AfterLastT(head + digits) == AfterLastT(head) + digits
  {
    if digits == "" {
      assert head + digits == head;
    } else {
      var front := digits[..|digits| - 1];
      assert (head + digits)[..|head + digits| - 1] == head + front;
      AfterLastTOfDigits(head, front);
      assert digits == front + [digits[|digits| - 1]];
      assert IsDigit(digits[|digits| - 1]);
    }
  }

  /** Output tokens lose their prefix. */
  lemma OutputTokens(digits: string)
    requires AllDigits(digits)
    ensures NormalizePort("out" + digits) == ParseNumber(digits)
  {
    hide ParseNumber;
    var token := "out" + digits;
    AfterLastTOfDigits("out", digits);
    assert AfterLastT("out") == "";
    assert AfterLastT(token) == digits;
    assert token[0] == 'o' && !IsDigit(token[0]);
    assert |token| > 3 && "out" <= token;
  }

  /** Input tokens have no 't' to cut at, so the whole token is taken for the number and kept as it is. */
  lemma InputTokens(digits: string)
    requires AllDigits(digits)
    ensures NormalizePort("in" + digits) == Ok(StringValue("in" + digits))
  {
    hide ParseNumber;
    var token := "in" + digits;
    AfterLastTOfDigits("in", digits);
    assert "in"[..1] == "i" && "i"[..0] == "";
    assert AfterLastT("i") == "i";
    assert AfterLastT("in") == "in";
    assert AfterLastT(token) == token;
    assert token[0] == 'i' && !IsDigit(token[0]);
    assert |token| > 2 && "in" <= token;
  }

  // ----- which links can be normalized -----

  /** The digits that a port token is read from, if it is read as a number at all. */
  function PortDigits(token: string): Option<string> {
    if AllDigits(token) then Some(token)
    else if ("in" <= token || "out" <= token) && AllDigits(AfterLastT(token)) then Some(AfterLastT(token))
    else None
  }

  /** The number in the token, if there is one, is within the range of `std::int64_t`. */
  predicate PortFits(token: string) {
    match PortDigits(token)
    case Some(digits) => Positional(digits) <= 0x7fff_ffff_ffff_ffff
    case None => true
  }

  /** Digits that make up the whole token, or follow a 't' in a token that begins like a port name. */
  predicate EndsInDigits(token: string, head: string, digits: string) {
    && token == head + digits && AllDigits(digits)
    && (head == "" || (head[|head| - 1] == 't' && ("in" <= token || "out" <= token)))
  }

  /** A port token is accepted exactly if its number is in range. */
  lemma PortNormalizesIff(token: string)
    ensures NormalizePort(token).Ok? <==> PortFits(token)
  {
    hide Number, Positional;
    if PortDigits(token).Some? { NumberIsPositional(PortDigits(token).value); }
    if token == "in" {
      assert "in"[..1] == "i" && "i"[..0] == "" && AfterLastT("i") == "i" && AfterLastT("in") == "in";
      assert !IsDigit(token[0]);
    } else if token == "out" {
      assert !IsDigit(token[0]) && AfterLastT(token) == "";
    } else {
      hide AfterLastT;
      assert "in" <= token || "out" <= token ==> |token| > 2;
    }
  }

  /** The number of a token is the one it ends in, and there is no other. */
  lemma PortDigitsAreTheEnd(token: string, digits: string)
    ensures PortDigits(token) == Some(digits) <==> exists head :: EndsInDigits(token, head, digits)
  {
    if AllDigits(token) { assert "" + token == token && EndsInDigits(token, "", token); }
    else if PortDigits(token).Some? { DigitsFollowT(token); }
    forall head | EndsInDigits(token, head, digits) ensures PortDigits(token) == Some(digits) {
      if head == "" {
        assert token == digits;
      } else {
        AfterLastTOfDigits(head, digits);
        assert token[|head| - 1] == 't' && !IsDigit(token[|head| - 1]);
        assert AfterLastT(token) == digits by { assert "" + digits == digits; }
      }
    }
  }

  lemma {:induction false} AfterLastTIsSuffix(token: string)
    ensures |AfterLastT(token)| <= |token|
    ensures var cut := |token| - |AfterLastT(token)|;
      token == token[..cut] + AfterLastT(token) && (cut > 0 ==> token[cut - 1] == 't')
  {
    if token != "" && token[|token| - 1] != 't' {
      var front := token[..|token| - 1];
      AfterLastTIsSuffix(front);
      var cut := |front| - |AfterLastT(front)|;
      assert AfterLastT(token) == AfterLastT(front) + [token[|token| - 1]];
      hide AfterLastT;
      assert token[..cut] == front[..cut];
      assert token == front + [token[|token| - 1]];
    }
  }

  lemma DigitsFollowT(token: string)
    requires AllDigits(AfterLastT(token)) && !AllDigits(token) && ("in" <= token || "out" <= token)
    ensures exists head :: EndsInDigits(token, head, AfterLastT(token))
  {
    AfterLastTIsSuffix(token);
    var head := token[..|token| - |AfterLastT(token)|];
    assert "" + AfterLastT(token) == AfterLastT(token);
    assert EndsInDigits(token, head, AfterLastT(token));
  }

  predicate EndFits(port: Value) {
    port.StringValue? ==> PortFits(port.text)
  }

  predicate NamesBothEnds(fields: PropertyMap) {
    && StringAt(fields, "source_block").Some? && StringAt(fields, "source_port_token").Some?
    && StringAt(fields, "dest_block").Some? && StringAt(fields, "dest_port_token").Some?
  }

  /** Both port tokens of a connection are in range, in whichever form it is written. */
  predicate LinkFits(connection: Value) {
    match connection
    case TensorValue(items) => |items| >= 4 ==> EndFits(items[1]) && EndFits(items[3])
    case MapValue(fields) =>
      NamesBothEnds(fields) ==>
        PortFits(StringAt(fields, "source_port_token").value) && PortFits(StringAt(fields, "dest_port_token").value)
    case _ => true
  }

  lemma ConnectionNormalizesIff(connection: Value)
    ensures NormalizeConnection(connection).Ok? <==> LinkFits(connection)
  {
    hide NormalizePort, PortFits;
    forall token ensures NormalizePort(token).Ok? <==> PortFits(token) { PortNormalizesIff(token); }
  }

  lemma {:induction false} ConnectionsNormalizeIff(connections: seq<Value>)
    ensures NormalizeConnections(connections).Ok? <==> forall i :: 0 <= i < |connections| ==> LinkFits(connections[i])
  {
    hide LinkFits, NormalizeConnection;
    if connections != [] {
      ConnectionNormalizesIff(connections[0]);
      ConnectionsNormalizeIff(connections[1..]);
      assert forall i :: 1 <= i < |connections| ==> connections[i] == connections[1..][i - 1];
      assert forall i :: 0 <= i < |connections| - 1 ==> connections[1..][i] == connections[i + 1];
    }
  }

  /** Every connection of the graph can be normalized. */
  ghost predicate LinksFit(root: PropertyMap) {
    match ItemsAt(root, "connections")
    case None => true
    case Some(connections) => forall i :: 0 <= i < |connections| ==> LinkFits(connections[i])
  }

  /** Normalizing a graph fails exactly on a port number out of range; whatever it returns has the normalized blocks. */
  lemma GraphNormalizesIff(root: PropertyMap)
    ensures NormalizeLinks(NormalizeBlocks(root)).Ok? <==> LinksFit(root)
    ensures LinksFit(root) ==>
      match ItemsAt(root, "blocks")
      case Some(items) => ItemsAt(NormalizeLinks(NormalizeBlocks(root)).value, "blocks") == Some(NormalizeItems(items))
      case None => ItemsAt(NormalizeLinks(NormalizeBlocks(root)).value, "blocks") == None
  {
    hide LinkFits, NormalizeConnections, NormalizeItems;
    var normal := NormalizeBlocks(root);
    assert ItemsAt(normal, "connections") == ItemsAt(root, "connections");
    if ItemsAt(root, "connections").Some? { ConnectionsNormalizeIff(ItemsAt(root, "connections").value); }
  }

  // ----- injection -----

  ghost predicate DistinctStreamIds(bindings: seq<StreamBinding>) {
    forall i, j :: 0 <= i < j < |bindings| ==> bindings[i].plan.streamId != bindings[j].plan.streamId
  }

  ghost predicate DistinctBlockNames(bindings: seq<StreamBinding>) {
    forall i, j :: 0 <= i < j < |bindings| ==> bindings[i].plan.blockInstanceName != bindings[j].plan.blockInstanceName
  }

  /** Some place of the block list receives binding `i`. */
  ghost predicate Reached(items: seq<Value>, bindings: seq<StreamBinding>, i: nat) {
    exists k :: 0 <= k < |items| && Receives(items[k], bindings) == Some(i)
  }

  /** Some block of the list has this runtime name. */
  ghost predicate Named(items: seq<Value>, name: string) {
    exists k :: 0 <= k < |items| && items[k].MapValue? && RuntimeName(items[k].fields) == Some(name)
  }

  function StreamIds(bindings: seq<StreamBinding>): seq<string> {
    seq(|bindings|, i requires 0 <= i < |bindings| => bindings[i].plan.streamId)
  }

  lemma SubsetOfSameSize<T>(a: set<T>, b: set<T>)
    requires a <= b && |a| == |b|
    ensures a == b
  {
    assert b == a + (b - a);
    assert |b| == |a| + |b - a|;
  }

  /** Counting injected ids is enough: as many as bindings means every binding was written somewhere. */
  lemma CountingReachesAll(items: seq<Value>, bindings: seq<StreamBinding>)
    requires DistinctStreamIds(bindings)
    ensures |InjectedIds(items, bindings)| == |bindings| <==> forall i :: 0 <= i < |bindings| ==> Reached(items, bindings, i)
  {
    hide Receives;
    var ids, injected := Elements(StreamIds(bindings)), InjectedIds(items, bindings);
    DistinctCount(StreamIds(bindings));
    forall id | id in injected ensures id in ids {
      var k :| 0 <= k < |items| && Receives(items[k], bindings).Some?
               && id == bindings[Receives(items[k], bindings).value].plan.streamId;
      assert StreamIds(bindings)[Receives(items[k], bindings).value] == id;
    }
    if |injected| == |bindings| {
      SubsetOfSameSize(injected, ids);
      forall i | 0 <= i < |bindings| ensures Reached(items, bindings, i) {
        assert StreamIds(bindings)[i] in ids;
        var k :| 0 <= k < |items| && Receives(items[k], bindings).Some?
                 && bindings[i].plan.streamId == bindings[Receives(items[k], bindings).value].plan.streamId;
        assert Receives(items[k], bindings) == Some(i);
      }
    }
    if forall i :: 0 <= i < |bindings| ==> Reached(items, bindings, i) {
      forall id | id in ids ensures id in injected {
        var i :| 0 <= i < |bindings| && StreamIds(bindings)[i] == id;
        assert Reached(items, bindings, i);
      }
      assert ids == injected;
    }
  }

  /**
   * An injection that returns has written the endpoint of every binding into a block of its name,
   * unless the graph has no readable block list; it leaves the rest of the graph alone.
   */
  lemma InjectionIsComplete(root: PropertyMap, bindings: seq<StreamBinding>, items: seq<Value>)
    requires DistinctStreamIds(bindings) && InjectBindings(root, bindings).Ok? && ItemsAt(root, "blocks") == Some(items)
    ensures var injected := InjectBindings(root, bindings).value;
      && ItemsAt(injected, "blocks").Some? && |ItemsAt(injected, "blocks").value| == |items|
      && (forall key :: key in injected <==> key in root)
      && (forall key :: key in root && key != "blocks" ==> injected[key] == root[key])
      && (forall i :: 0 <= i < |bindings| ==> EndpointIn(ItemsAt(injected, "blocks").value, bindings[i]))
  {
    hide RuntimeName, BindingFor;
    if bindings != [] {
      CountingReachesAll(items, bindings);
      forall i | 0 <= i < |bindings| ensures EndpointIn(InjectItems(items, bindings), bindings[i]) {
        assert Reached(items, bindings, i);
        var k :| 0 <= k < |items| && Receives(items[k], bindings) == Some(i);
        ReceiverHasEndpoint(items[k], bindings);
        assert InjectItems(items, bindings)[k] == InjectItem(items[k], bindings);
      }
    }
  }

  /** A block of the list carries the binding's block name and its endpoint. */
  ghost predicate EndpointIn(items: seq<Value>, binding: StreamBinding) {
    exists k :: 0 <= k < |items| && CarriesEndpoint(items[k], binding)
  }

  predicate CarriesEndpoint(item: Value, binding: StreamBinding) {
    && item.MapValue?
    && RuntimeName(item.fields) == Some(binding.plan.blockInstanceName)
    && StringAt(MapAt(item.fields, "parameters"), "endpoint") == Some(binding.internal.endpoint)
  }

  lemma ReceiverHasEndpoint(item: Value, bindings: seq<StreamBinding>)
    requires Receives(item, bindings).Some?
    ensures CarriesEndpoint(InjectItem(item, bindings), bindings[Receives(item, bindings).value])
  {
  }

  /**
   * When the injection succeeds: exactly if the bindings name pairwise distinct blocks and each name
   * is the runtime name of some block. (The graph has a readable block list and stream ids differ.)
   */
  lemma InjectionSucceedsIff(root: PropertyMap, bindings: seq<StreamBinding>, items: seq<Value>)
    requires DistinctStreamIds(bindings) && ItemsAt(root, "blocks") == Some(items)
    ensures InjectBindings(root, bindings).Ok? <==>
      && DistinctBlockNames(bindings)
      && forall i :: 0 <= i < |bindings| ==> Named(items, bindings[i].plan.blockInstanceName)
  {
    hide RuntimeName;
    CountingReachesAll(items, bindings);
    if forall i :: 0 <= i < |bindings| ==> Reached(items, bindings, i) {
      forall i | 0 <= i < |bindings|
        ensures Named(items, bindings[i].plan.blockInstanceName)
        ensures forall j :: 0 <= j < i ==> bindings[j].plan.blockInstanceName != bindings[i].plan.blockInstanceName
      {
        assert Reached(items, bindings, i);
        var k :| 0 <= k < |items| && Receives(items[k], bindings) == Some(i);
        assert RuntimeName(items[k].fields) == Some(bindings[i].plan.blockInstanceName);
      }
    }
    if DistinctBlockNames(bindings) && forall i :: 0 <= i < |bindings| ==> Named(items, bindings[i].plan.blockInstanceName) {
      forall i | 0 <= i < |bindings| ensures Reached(items, bindings, i) {
        assert Named(items, bindings[i].plan.blockInstanceName);
        var k :| 0 <= k < |items| && items[k].MapValue? && RuntimeName(items[k].fields) == Some(bindings[i].plan.blockInstanceName);
        assert Receives(items[k], bindings) == Some(i);
      }
    }
  }

  // ----- planner and runtime names -----

  /** When the planner and the runtime give a block the same name; both sides of the test are in the block itself. */
  predicate NamesAgree(block: PropertyMap) {
    var parameters := MergedParameters(block);
    if "name" in parameters then
      if !Blank(StringAt(parameters, "name")) then true
      else if !Blank(StringAt(block, "id")) && "block" in block then StringAt(block, "instance_name") == StringAt(block, "id")
      else !Blank(StringAt(block, "instance_name"))
    else
      Blank(StringAt(block, "id")) || "block" in block || OwnName(block) == StringAt(block, "id")
  }

  lemma NormalizationKeepsNameKeys(block: PropertyMap)
    ensures var normal := NormalizeBlock(block);
      && StringAt(normal, "instance_name") == StringAt(block, "instance_name")
      && MapAt(normal, "parameters") == NamedParameters(block)
  {
  }

  /** For a block the planner can name, normalization gives it that name at run time exactly if the two agree. */
  lemma NamesAgreeIff(block: PropertyMap)
    requires PlannedName(block) != ""
    ensures RuntimeName(NormalizeBlock(block)) == Some(PlannedName(block)) <==> NamesAgree(block)
  {
    NormalizationKeepsNameKeys(block);
    hide NormalizeBlock, MergedParameters;
  }

  /** The name a block has at run time, read off the block as it was authored. */
  function AuthoredRuntimeName(block: PropertyMap): Option<string> {
    var parameters := MergedParameters(block);
    if "name" in parameters then
      if !Blank(StringAt(parameters, "name")) then StringAt(parameters, "name")
      else if !Blank(StringAt(block, "instance_name")) then StringAt(block, "instance_name")
      else None
    else if !Blank(StringAt(block, "id")) then StringAt(block, "id")
    else OwnName(block)
  }

  lemma RuntimeNameOfNormalized(block: PropertyMap)
    ensures RuntimeName(NormalizeBlock(block)) == AuthoredRuntimeName(block)
  {
    NormalizationKeepsNameKeys(block);
    hide NormalizeBlock, MergedParameters;
  }

  /**
   * The two name resolutions really differ: this block is planned as "b0" but runs as "T", so the
   * graph passes the contract, a plan is derived for it, and no binding of that plan can be injected.
   */
  lemma NamesCanDisagree(port: Port)
    ensures var parameters := map["transport" := StringValue("websocket"), "payload_format" := StringValue("f32")];
      var block := map["id" := StringValue("T"), "instance_name" := StringValue("b0"), "parameters" := MapValue(parameters)];
      var root := map["blocks" := TensorValue([MapValue(block)])];
      && PlannedName(block) == "b0" && RuntimeName(NormalizeBlock(block)) == Some("T")
      && |Declared([MapValue(block)])| == 1 && FirstError(Declared([MapValue(block)]), {}).None?
      && var bindings := [BindStream(PlanFor("s", Declared([MapValue(block)])[0]), port)];
         NormalizeGraph(root, bindings) == Err(BindingNotInjected)
  {
    var parameters := map["transport" := StringValue("websocket"), "payload_format" := StringValue("f32")];
    var block := map["id" := StringValue("T"), "instance_name" := StringValue("b0"), "parameters" := MapValue(parameters)];
    var items := [MapValue(block)];
    var root := map["blocks" := TensorValue(items)];
    assert MapAt(block, "raw_parameters") == map[] && MapAt(block, "parameters") == parameters;
    assert MergedParameters(block) == parameters;
    assert PlannedName(block) == "b0";
    NamesAgreeIff(block);
    var declared := Declared(items);
    assert items[1..] == [] && Declared([]) == [];
    assert ManagedBlock(items[0]) == Some(NormalizedBlock("T", "b0", StreamIntent(true, None, Some("websocket"), Some("f32"))));
    assert declared == [ManagedBlock(items[0]).value] + Declared(items[1..]);
    assert declared == [NormalizedBlock("T", "b0", StreamIntent(true, None, Some("websocket"), Some("f32")))];
    assert declared[1..] == [];
    assert FirstError(declared, {}).None?;
    var bindings := [BindStream(PlanFor("s", declared[0]), port)];
    assert bindings[0].plan.blockInstanceName == "b0";
    var normal := NormalizeBlocks(root);
    assert NormalizeLinks(normal) == Ok(normal);
    MismatchFails(normal, bindings, NormalizeItems(items), block);
  }

  lemma MismatchFails(normal: PropertyMap, bindings: seq<StreamBinding>, items: seq<Value>, block: PropertyMap)
    requires ItemsAt(normal, "blocks") == Some(items) && items == [MapValue(NormalizeBlock(block))]
    requires |bindings| == 1 && RuntimeName(NormalizeBlock(block)) != Some(bindings[0].plan.blockInstanceName)
    ensures InjectBindings(normal, bindings) == Err(BindingNotInjected)
  {
    hide NormalizeBlock, RuntimeName;
    InjectionSucceedsIff(normal, bindings, items);
    assert !Named(items, bindings[0].plan.blockInstanceName);
  }

  // ----- when an accepted graph can be loaded -----

  /** Some authored block of the list will run under this name. */
  ghost predicate RunsAs(items: seq<Value>, name: string) {
    exists k :: 0 <= k < |items| && items[k].MapValue? && AuthoredRuntimeName(items[k].fields) == Some(name)
  }

  lemma RunsAsIffNamed(items: seq<Value>, name: string)
    ensures Named(NormalizeItems(items), name) <==> RunsAs(items, name)
  {
    hide RuntimeName, AuthoredRuntimeName, NormalizeBlock;
    forall block ensures RuntimeName(NormalizeBlock(block)) == AuthoredRuntimeName(block) { RuntimeNameOfNormalized(block); }
    if RunsAs(items, name) {
      var k :| 0 <= k < |items| && items[k].MapValue? && AuthoredRuntimeName(items[k].fields) == Some(name);
      assert NormalizeItems(items)[k] == MapValue(NormalizeBlock(items[k].fields));
    }
    if Named(NormalizeItems(items), name) {
      var k :| 0 <= k < |items| && NormalizeItems(items)[k].MapValue? && RuntimeName(NormalizeItems(items)[k].fields) == Some(name);
      assert items[k].MapValue? && NormalizeItems(items)[k] == MapValue(NormalizeBlock(items[k].fields));
    }
  }

  /** The declared blocks are planned under different names, and each of these is the runtime name of some block. */
  ghost predicate NamesCanBeBound(items: seq<Value>) {
    var declared := Declared(items);
    && (forall i, j :: 0 <= i < j < |declared| ==> declared[i].instanceName != declared[j].instanceName)
    && (forall i :: 0 <= i < |declared| ==> RunsAs(items, declared[i].instanceName))
  }

  lemma BindingNamesArePlanned(sessionId: string, declared: seq<NormalizedBlock>, bindings: seq<StreamBinding>)
    requires PlansOf(bindings) == PlansFor(sessionId, declared)
    ensures |bindings| == |declared|
    ensures forall i :: 0 <= i < |bindings| ==> bindings[i].plan.blockInstanceName == declared[i].instanceName
  {
    assert |PlansOf(bindings)| == |bindings|;
    assert forall i :: 0 <= i < |bindings| ==> PlansOf(bindings)[i] == bindings[i].plan;
  }

  /**
   * A graph whose contract holds, with the bindings made for its plan, goes through normalization and
   * injection exactly if its port numbers are in range and its planned names can be bound.
   */
  lemma AcceptedGraphLoadsIff(sessionId: string, root: PropertyMap, items: seq<Value>, bindings: seq<StreamBinding>)
    requires ItemsAt(root, "blocks") == Some(items)
    requires ContractHolds(Declared(items), {}) && PlansOf(bindings) == PlansFor(sessionId, Declared(items))
    ensures NormalizeGraph(root, bindings).Ok? <==> LinksFit(root) && NamesCanBeBound(items)
  {
    hide LinksFit, NormalizeLinks, NormalizeBlocks, NormalizeItems, InjectBindings, ContractHolds, PlansFor, PlansOf, Named, RunsAs,
         Declared;
    GraphNormalizesIff(root);
    PlanIdsDiffer(sessionId, items, bindings);
    BindingNamesArePlanned(sessionId, Declared(items), bindings);
    if LinksFit(root) {
      var normal := NormalizeLinks(NormalizeBlocks(root)).value;
      InjectionSucceedsIff(normal, bindings, NormalizeItems(items));
      forall name ensures Named(NormalizeItems(items), name) <==> RunsAs(items, name) { RunsAsIffNamed(items, name); }
    }
  }

  /** What a stored graph must satisfy, besides the stream contract, to reach the loader. */
  ghost predicate Loadable(yaml: Yaml, grc: string) {
    match yaml(grc)
    case None => true
    case Some(root) =>
      LinksFit(root) && match ItemsAt(root, "blocks") case None => true case Some(items) => NamesCanBeBound(items)
  }

  /** The same for a whole session: once the contract check has passed, only an unloadable graph stops the rewriting. */
  lemma AcceptedSessionLoadsIff(yaml: Yaml, session: Session, bindings: seq<StreamBinding>)
    requires ContractErrorOf(yaml, session).None? && PlansOf(bindings) == PlannedStreams(yaml, session)
    ensures LoadedGraph(yaml, session.grcContent, bindings).Ok? <==> Loadable(yaml, session.grcContent)
  {
    ValidationAgreesWithDerivation(yaml, session);
    hide LinksFit, NamesCanBeBound, ContractErrorOf, ContractHolds, PlansFor, NormalizeLinks, NormalizeBlocks;
    var root := yaml(session.grcContent);
    if root.Some? {
      GraphNormalizesIff(root.value);
      match ItemsAt(root.value, "blocks") {
        case Some(items) =>
          assert PlansOf(bindings) == PlansFor(session.id, Declared(items));
          AcceptedGraphLoadsIff(session.id, root.value, items, bindings);
        case None =>
      }
    }
  }

  // ----- normalize, then inject -----

  /** The name among a block's own parameters. */
  function GivenName(item: Value): Option<string> {
    if item.MapValue? then StringAt(MapAt(item.fields, "parameters"), "name") else None
  }

  /** Every block has a non-empty name among its own parameters, and no two have the same. */
  ghost predicate WellNamed(items: seq<Value>) {
    && (forall k :: 0 <= k < |items| && items[k].MapValue? ==> !Blank(GivenName(items[k])))
    && (forall j, k :: 0 <= j < k < |items| && items[j].MapValue? && items[k].MapValue? ==> GivenName(items[j]) != GivenName(items[k]))
  }

  lemma GivenNameIsKept(item: Value)
    requires item.MapValue? && !Blank(GivenName(item))
    ensures PlannedName(item.fields) == GivenName(item).value
    ensures NormalizeItem(item).MapValue? && RuntimeName(NormalizeItem(item).fields) == GivenName(item)
    ensures MapAt(NormalizeItem(item).fields, "parameters") == MergedParameters(item.fields)
  {
    NormalizationKeepsNameKeys(item.fields);
  }

  /** The bindings made for a plan carry the block names of the declared blocks, place by place. */
  lemma BindingNames(sessionId: string, items: seq<Value>, bindings: seq<StreamBinding>) returns (at: seq<nat>)
    requires WellNamed(items) && PlansOf(bindings) == PlansFor(sessionId, Declared(items))
    ensures |at| == |bindings|
    ensures forall i :: 0 <= i < |at| ==>
      && at[i] < |items| && items[at[i]].MapValue?
      && ManagedBlock(items[at[i]]) == Some(Declared(items)[i])
      && bindings[i].plan == PlanFor(sessionId, Declared(items)[i])
      && Some(bindings[i].plan.blockInstanceName) == GivenName(items[at[i]])
    ensures forall i, j :: 0 <= i < j < |at| ==> at[i] < at[j]
    ensures forall k :: 0 <= k < |items| && ManagedBlock(items[k]).Some? ==> k in at
  {
    at := DeclaredInOrder(items);
    assert |PlansOf(bindings)| == |bindings|;
    forall i | 0 <= i < |at|
      ensures items[at[i]].MapValue?
      ensures bindings[i].plan == PlanFor(sessionId, Declared(items)[i])
      ensures Some(bindings[i].plan.blockInstanceName) == GivenName(items[at[i]])
    {
      assert PlansOf(bindings)[i] == bindings[i].plan;
      var item := items[at[i]];
      assert ManagedBlock(item).Some?;
      GivenNameIsKept(item);
    }
  }

  /** What a place of the normalized block list receives: the binding of the stream it declares, or nothing. */
  lemma ReceivesItsOwn(sessionId: string, items: seq<Value>, bindings: seq<StreamBinding>, at: seq<nat>, k: nat)
    requires WellNamed(items) && k < |items| && |at| == |bindings|
    requires forall i :: 0 <= i < |at| ==>
      at[i] < |items| && items[at[i]].MapValue? && Some(bindings[i].plan.blockInstanceName) == GivenName(items[at[i]])
    requires forall i, j :: 0 <= i < j < |at| ==> at[i] < at[j]
    ensures forall i: nat :: i < |at| && at[i] == k ==> Receives(NormalizeItem(items[k]), bindings) == Some(i)
    ensures k !in at ==> Receives(NormalizeItem(items[k]), bindings) == None
  {
    hide NormalizeBlock, RuntimeName;
    if items[k].MapValue? {
      GivenNameIsKept(items[k]);
      var name := GivenName(items[k]).value;
      forall i | 0 <= i < |bindings| && bindings[i].plan.blockInstanceName == name ensures at[i] == k {
        assert GivenName(items[at[i]]) == GivenName(items[k]);
      }
    }
  }

  /**
   * On a graph whose blocks are all named apart, with bindings made for its own plan, the whole
   * rewriting fails exactly on a port number out of range. Otherwise each declared block gets the
   * endpoint of its own stream, over any endpoint it was authored with; no other parameter and no
   * other block changes beyond normalization, and no key of the graph but its blocks and connections.
   */
  lemma NormalizeThenInject(sessionId: string, root: PropertyMap, items: seq<Value>, bindings: seq<StreamBinding>)
    requires ItemsAt(root, "blocks") == Some(items) && WellNamed(items)
    requires ContractHolds(Declared(items), {}) && PlansOf(bindings) == PlansFor(sessionId, Declared(items))
    ensures NormalizeGraph(root, bindings).Ok? <==> LinksFit(root)
    ensures LinksFit(root) ==>
      var graph := NormalizeGraph(root, bindings).value;
      && graph.Keys == root.Keys
      && (forall key :: key in root && key != "blocks" && key != "connections" ==> graph[key] == root[key])
      && ItemsAt(graph, "blocks").Some? && |ItemsAt(graph, "blocks").value| == |items|
      && forall k :: 0 <= k < |items| ==> InjectedAsPlanned(sessionId, items[k], ItemsAt(graph, "blocks").value[k], bindings)
  {
    hide LinksFit, NormalizeLinks, NormalizeBlocks, InjectBindings, InjectedAsPlanned, WellNamed, ContractHolds, Declared,
         NormalizeItem, InjectItem, PlansOf, PlansFor;
    GraphNormalizesIff(root);
    if LinksFit(root) {
      var normal := NormalizeLinks(NormalizeBlocks(root)).value;
      InjectAfterNormalizing(sessionId, items, bindings, normal);
      RewritingKeepsOtherKeys(root, bindings);
      InjectedList(normal, items, bindings);
    }
  }

  /** The rewriting touches no key of the graph but its blocks and connections. */
  lemma RewritingKeepsOtherKeys(root: PropertyMap, bindings: seq<StreamBinding>)
    requires NormalizeGraph(root, bindings).Ok?
    ensures var graph := NormalizeGraph(root, bindings).value;
      graph.Keys == root.Keys && forall key :: key in root && key != "blocks" && key != "connections" ==> graph[key] == root[key]
  {
    hide NormalizeConnections, NormalizeItems, InjectItems, InjectedIds;
  }

  lemma InjectedList(normal: PropertyMap, items: seq<Value>, bindings: seq<StreamBinding>)
    requires ItemsAt(normal, "blocks") == Some(NormalizeItems(items)) && InjectBindings(normal, bindings).Ok?
    ensures var blocks := ItemsAt(InjectBindings(normal, bindings).value, "blocks");
      && blocks.Some? && |blocks.value| == |items|
      && forall k :: 0 <= k < |items| ==> blocks.value[k] == InjectItem(NormalizeItem(items[k]), bindings)
  {
    hide NormalizeItem, InjectItem, InjectedIds;
    if bindings == [] {
      forall item ensures InjectItem(item, bindings) == item { NothingReceived(item); }
    }
  }

  lemma NothingReceived(item: Value)
    ensures InjectItem(item, []) == item
  {
  }

  lemma InjectAfterNormalizing(sessionId: string, items: seq<Value>, bindings: seq<StreamBinding>, normal: PropertyMap)
    requires ItemsAt(normal, "blocks") == Some(NormalizeItems(items)) && WellNamed(items)
    requires ContractHolds(Declared(items), {}) && PlansOf(bindings) == PlansFor(sessionId, Declared(items))
    ensures InjectBindings(normal, bindings).Ok?
    ensures bindings != [] ==>
      InjectBindings(normal, bindings) == Ok(normal["blocks" := TensorValue(InjectItems(NormalizeItems(items), bindings))])
    ensures forall k :: 0 <= k < |items| ==> InjectedAsPlanned(sessionId, items[k], InjectItem(NormalizeItem(items[k]), bindings), bindings)
  {
    var at := BindingNames(sessionId, items, bindings);
    var normalItems := NormalizeItems(items);
    PlanIdsDiffer(sessionId, items, bindings);
    forall k | 0 <= k < |items|
      ensures InjectedAsPlanned(sessionId, items[k], InjectItem(NormalizeItem(items[k]), bindings), bindings)
    {
      ReceivesItsOwn(sessionId, items, bindings, at, k);
      InjectedItem(sessionId, items, bindings, at, k);
    }
    forall i | 0 <= i < |bindings| ensures Reached(normalItems, bindings, i) {
      ReceivesItsOwn(sessionId, items, bindings, at, at[i]);
      assert Receives(normalItems[at[i]], bindings) == Some(i);
    }
    hide NormalizeItem, Receives, InjectItem, InjectedAsPlanned, Declared, ContractHolds, WellNamed;
    CountingReachesAll(normalItems, bindings);
  }

  /** How injection may change one place of the block list. */
  ghost predicate InjectedAsPlanned(sessionId: string, item: Value, injected: Value, bindings: seq<StreamBinding>) {
    match ManagedBlock(item)
    case None => injected == NormalizeItem(item)
    case Some(block) =>
      exists i :: 0 <= i < |bindings| && bindings[i].plan == PlanFor(sessionId, block) &&
        item.MapValue? && injected == MapValue(NormalizeBlock(item.fields)["parameters" :=
          MapValue(MergedParameters(item.fields)["endpoint" := StringValue(bindings[i].internal.endpoint)])])
  }

  lemma InjectedItem(sessionId: string, items: seq<Value>, bindings: seq<StreamBinding>, at: seq<nat>, k: nat)
    requires WellNamed(items) && k < |items| && |at| == |bindings|
    requires forall i :: 0 <= i < |at| ==>
      && at[i] < |items| && ManagedBlock(items[at[i]]).Some?
      && bindings[i].plan == PlanFor(sessionId, ManagedBlock(items[at[i]]).value)
    requires ManagedBlock(items[k]).Some? ==> k in at
    requires forall i: nat :: i < |at| && at[i] == k ==> Receives(NormalizeItem(items[k]), bindings) == Some(i)
    requires k !in at ==> Receives(NormalizeItem(items[k]), bindings) == None
    ensures InjectedAsPlanned(sessionId, items[k], InjectItem(NormalizeItem(items[k]), bindings), bindings)
  {
    hide NormalizeBlock, NormalizeStreamBlock, Receives, PlanFor;
    if k in at {
      var i: nat :| i < |at| && at[i] == k;
      assert items[k].MapValue?;
      GivenNameIsKept(items[k]);
    }
  }

  lemma PlanIdsDiffer(sessionId: string, items: seq<Value>, bindings: seq<StreamBinding>)
    requires ContractHolds(Declared(items), {}) && PlansOf(bindings) == PlansFor(sessionId, Declared(items))
    ensures DistinctStreamIds(bindings)
  {
    PlanOfContract(sessionId, Declared(items));
    var plan := PlansFor(sessionId, Declared(items));
    assert forall i :: 0 <= i < |bindings| ==> bindings[i].plan == PlansOf(bindings)[i];
  }
}
