/**
 * What a rewritten graph looks like, place by place and key by key, in terms of the graph as it was
 * authored. Nothing here refers to the normal forms of FlowGraphs but the lemmas that relate the two.
 */
module RewrittenGraphs {
  import opened Common
  import opened Digits
  import opened Pmt
  import opened StreamBindings
  import opened FlowGraphs
  import opened GraphTheorems

  // ----- connections -----

  /** What a port token becomes: a number where it is one, and otherwise the same text. */
  predicate PortBecomes(token: string, value: Value) {
    if token == "in" || token == "out" then value == IntValue(Int64, 0)
    else match PortDigits(token)
      case Some(digits) => value == IntValue(Int64, Positional(digits))
      case None => value == StringValue(token)
  }

  lemma PortMeans(token: string, value: Value)
    ensures NormalizePort(token) == Ok(value) <==> PortFits(token) && PortBecomes(token, value)
  {
    hide Number, Positional;
    PortNormalizesIff(token);
    if token != "in" && token != "out" {
      hide AfterLastT, PortFits;
      assert "in" <= token || "out" <= token ==> |token| > 2;
      if PortDigits(token).Some? { NumberIsPositional(PortDigits(token).value); }
    }
  }

  /** A port place: texts become what their token says, and anything else stays. */
  predicate EndBecomes(authored: Value, value: Value) {
    if authored.StringValue? then PortBecomes(authored.text, value) else value == authored
  }

  /**
   * A list of at least four items keeps them all but the ports at places 1 and 3; a map that names both
   * ends becomes the list of source, source port, destination, destination port; anything else stays.
   */
  predicate LinkBecomes(authored: Value, link: Value) {
    match authored
    case TensorValue(items) =>
      if |items| < 4 then link == authored
      else
        && link.TensorValue? && |link.items| == |items|
        && EndBecomes(items[1], link.items[1]) && EndBecomes(items[3], link.items[3])
        && forall k :: 0 <= k < |items| && k != 1 && k != 3 ==> link.items[k] == items[k]
    case MapValue(fields) =>
      if !NamesBothEnds(fields) then link == authored
      else
        && link.TensorValue? && |link.items| == 4
        && link.items[0] == fields["source_block"]
        && EndBecomes(fields["source_port_token"], link.items[1])
        && link.items[2] == fields["dest_block"]
        && EndBecomes(fields["dest_port_token"], link.items[3])
    case _ => link == authored
  }

  lemma ConnectionMeans(connection: Value, link: Value)
    ensures NormalizeConnection(connection) == Ok(link) <==> LinkFits(connection) && LinkBecomes(connection, link)
  {
    hide NormalizePort, PortFits, PortBecomes;
    forall token, value ensures NormalizePort(token) == Ok(value) <==> PortFits(token) && PortBecomes(token, value) {
      PortMeans(token, value);
    }
    ConnectionNormalizesIff(connection);
    match connection {
      case TensorValue(items) => ListMeans(items, link);
      case MapValue(fields) => FieldsMean(fields, link);
      case _ =>
    }
  }

  lemma ListMeans(items: seq<Value>, link: Value)
    requires forall token, value :: NormalizePort(token) == Ok(value) <==> PortFits(token) && PortBecomes(token, value)
    requires NormalizeConnection(TensorValue(items)).Ok? <==> LinkFits(TensorValue(items))
    ensures NormalizeConnection(TensorValue(items)) == Ok(link)
       <==> LinkFits(TensorValue(items)) && LinkBecomes(TensorValue(items), link)
  {
    hide NormalizePort, PortFits, PortBecomes;
    if |items| >= 4 && LinkFits(TensorValue(items)) {
      var source, dest := NormalizeEnd(items[1]).value, NormalizeEnd(items[3]).value;
      assert EndBecomes(items[1], source) && EndBecomes(items[3], dest);
      if LinkBecomes(TensorValue(items), link) {
        assert NormalizeEnd(items[1]) == Ok(link.items[1]) && NormalizeEnd(items[3]) == Ok(link.items[3]);
        assert link.items == items[1 := source][3 := dest];
      }
    }
  }

  lemma FieldsMean(fields: PropertyMap, link: Value)
    requires forall token, value :: NormalizePort(token) == Ok(value) <==> PortFits(token) && PortBecomes(token, value)
    requires NormalizeConnection(MapValue(fields)).Ok? <==> LinkFits(MapValue(fields))
    ensures NormalizeConnection(MapValue(fields)) == Ok(link)
       <==> LinkFits(MapValue(fields)) && LinkBecomes(MapValue(fields), link)
  {
    hide NormalizePort, PortFits, PortBecomes;
    if NamesBothEnds(fields) && LinkFits(MapValue(fields)) && LinkBecomes(MapValue(fields), link) {
      var source, sourcePort := StringAt(fields, "source_block").value, StringAt(fields, "source_port_token").value;
      var dest, destPort := StringAt(fields, "dest_block").value, StringAt(fields, "dest_port_token").value;
      assert NormalizePort(sourcePort) == Ok(link.items[1]) && NormalizePort(destPort) == Ok(link.items[3]);
      assert link.items == [StringValue(source), link.items[1], StringValue(dest), link.items[3]];
    }
  }

  lemma {:induction false} ConnectionsMean(connections: seq<Value>)
    requires NormalizeConnections(connections).Ok?
    ensures var links := NormalizeConnections(connections).value;
      |links| == |connections| && forall i :: 0 <= i < |connections| ==> LinkBecomes(connections[i], links[i])
  {
    hide NormalizeConnection, LinkFits, LinkBecomes;
    if connections != [] {
      ConnectionMeans(connections[0], NormalizeConnection(connections[0]).value);
      ConnectionsMean(connections[1..]);
    }
  }

  // ----- blocks -----

  function TextOr(fields: PropertyMap, key: string, otherwise: Option<Value>): Option<Value> {
    match StringAt(fields, key)
    case Some(text) => if text != "" then Some(StringValue(text)) else otherwise
    case None => otherwise
  }

  /**
   * A block keeps every key but two. Its id becomes its type, where it names one. Its parameters are the
   * authored ones, under the name that was given as a parameter, or else by the id the block was
   * authored with, or else by the first of its own naming keys.
   */
  ghost predicate BlockBecomes(block: PropertyMap, normal: PropertyMap) {
    && (forall key :: key != "id" && key != "parameters" ==> At(normal, key) == At(block, key))
    && At(normal, "id") == TextOr(block, "block", if "id" in block then At(block, "id") else TextOr(block, "block_type", None))
    && (forall parameter :: parameter != "name" ==> At(MapAt(normal, "parameters"), parameter) == Authored(block, parameter))
    && At(MapAt(normal, "parameters"), "name")
       == (if Authored(block, "name").Some? then Authored(block, "name")
           else TextOr(block, "id", TextOr(block, "instance_name", TextOr(block, "name", None))))
    && (MapAt(normal, "parameters") == map[] ==> At(normal, "parameters") == At(block, "parameters"))
  }

  lemma BlockMeans(block: PropertyMap, normal: PropertyMap)
    ensures NormalizeBlock(block) == normal <==> BlockBecomes(block, normal)
  {
    NormalFormMeans(block);
    hide NormalizeBlock;
    if BlockBecomes(block, normal) { BlockBecomesOneThing(block, NormalizeBlock(block), normal); }
  }

  lemma NormalFormMeans(block: PropertyMap)
    ensures BlockBecomes(block, NormalizeBlock(block))
  {
    NormalizationKeepsNameKeys(block);
    NamedParametersMean(block);
    TypeIdMeans(block);
    hide NamedParameters, WithTypeId, MapAt, TextOr, Authored;
    var normal, parameters := NormalizeBlock(block), NamedParameters(block);
    assert MapAt(normal, "parameters") == parameters;
    assert parameters == map[] ==> normal == WithTypeId(block);
  }

  lemma NamedParametersMean(block: PropertyMap)
    ensures forall parameter :: parameter != "name" ==> At(NamedParameters(block), parameter) == Authored(block, parameter)
    ensures At(NamedParameters(block), "name")
         == (if Authored(block, "name").Some? then Authored(block, "name")
             else TextOr(block, "id", TextOr(block, "instance_name", TextOr(block, "name", None))))
  {
  }

  lemma TypeIdMeans(block: PropertyMap)
    ensures forall key :: key != "id" ==> At(WithTypeId(block), key) == At(block, key)
    ensures At(WithTypeId(block), "id")
         == TextOr(block, "block", if "id" in block then At(block, "id") else TextOr(block, "block_type", None))
  {
  }

  /** The description leaves nothing open. */
  lemma BlockBecomesOneThing(block: PropertyMap, one: PropertyMap, other: PropertyMap)
    requires BlockBecomes(block, one) && BlockBecomes(block, other)
    ensures one == other
  {
    var p, q := MapAt(one, "parameters"), MapAt(other, "parameters");
    forall parameter ensures At(p, parameter) == At(q, parameter) {
      if parameter != "name" { assert At(p, parameter) == Authored(block, parameter); }
    }
    SameEverywhere(p, q);
    forall key ensures At(one, key) == At(other, key) {
      if key != "id" && key != "parameters" { assert At(one, key) == At(block, key); }
    }
    SameEverywhere(one, other);
  }

  lemma SameEverywhere(one: PropertyMap, other: PropertyMap)
    requires forall key :: At(one, key) == At(other, key)
    ensures one == other
  {
    assert forall key :: key in one <==> At(one, key).Some?;
    assert forall key :: key in other <==> At(other, key).Some?;
    assert forall key :: key in one ==> At(one, key) == Some(one[key]) && At(other, key) == Some(other[key]);
  }

  // ----- the whole graph -----

  /** The first binding that is made for a block of this name. */
  ghost predicate IsFirstFor(bindings: seq<StreamBinding>, i: nat, name: Option<string>) {
    && i < |bindings| && name == Some(bindings[i].plan.blockInstanceName)
    && forall j :: 0 <= j < i ==> bindings[j].plan.blockInstanceName != bindings[i].plan.blockInstanceName
  }

  /**
   * What is no block map stays. A block becomes its normal form; if some binding is made for the name
   * it runs under, it gets the endpoint of the first such binding as a parameter besides.
   */
  ghost predicate PlaceBecomes(authored: Value, bindings: seq<StreamBinding>, place: Value) {
    if !authored.MapValue? then place == authored
    else
      exists normal :: BlockBecomes(authored.fields, normal) &&
        if exists i: nat :: IsFirstFor(bindings, i, AuthoredRuntimeName(authored.fields)) then
          exists i: nat :: IsFirstFor(bindings, i, AuthoredRuntimeName(authored.fields)) && place == MapValue(normal["parameters" :=
            MapValue(MapAt(normal, "parameters")["endpoint" := StringValue(bindings[i].internal.endpoint)])])
        else place == MapValue(normal)
  }

  /** The graph that is loaded, in terms of the authored one: links and blocks place by place, and every other key as it was. */
  ghost predicate GraphBecomes(root: PropertyMap, bindings: seq<StreamBinding>, graph: PropertyMap) {
    && (forall key :: key != "blocks" && key != "connections" ==> At(graph, key) == At(root, key))
    && (match ItemsAt(root, "connections")
        case None => At(graph, "connections") == At(root, "connections")
        case Some(authored) =>
          && ItemsAt(graph, "connections").Some? && |ItemsAt(graph, "connections").value| == |authored|
          && forall k :: 0 <= k < |authored| ==> LinkBecomes(authored[k], ItemsAt(graph, "connections").value[k]))
    && (match ItemsAt(root, "blocks")
        case None => At(graph, "blocks") == At(root, "blocks")
        case Some(authored) =>
          && ItemsAt(graph, "blocks").Some? && |ItemsAt(graph, "blocks").value| == |authored|
          && forall k :: 0 <= k < |authored| ==> PlaceBecomes(authored[k], bindings, ItemsAt(graph, "blocks").value[k]))
  }

  lemma PlaceMeans(item: Value, bindings: seq<StreamBinding>)
    ensures PlaceBecomes(item, bindings, InjectItem(NormalizeItem(item), bindings))
  {
    if item.MapValue? {
      var normal := NormalizeBlock(item.fields);
      BlockMeans(item.fields, normal);
      RuntimeNameOfNormalized(item.fields);
      var name := AuthoredRuntimeName(item.fields);
      hide NormalizeBlock, BlockBecomes, AuthoredRuntimeName, RuntimeName;
      match Receives(MapValue(normal), bindings) {
        case Some(i) => assert IsFirstFor(bindings, i, name);
        case None => assert forall i: nat :: !IsFirstFor(bindings, i, name);
      }
    }
  }

  /** A rewriting that returns gives a graph as described. */
  lemma GraphMeans(root: PropertyMap, bindings: seq<StreamBinding>)
    requires NormalizeGraph(root, bindings).Ok?
    ensures GraphBecomes(root, bindings, NormalizeGraph(root, bindings).value)
  {
    hide NormalizeConnections, NormalizeItems, LinkBecomes, PlaceBecomes, InjectItems, InjectedIds, LinksFit;
    GraphNormalizesIff(root);
    var normal := NormalizeLinks(NormalizeBlocks(root)).value;
    var graph := NormalizeGraph(root, bindings).value;
    if ItemsAt(root, "connections").Some? { ConnectionsMean(ItemsAt(root, "connections").value); }
    if ItemsAt(root, "blocks").Some? {
      var items := ItemsAt(root, "blocks").value;
      InjectedList(normal, items, bindings);
      forall k | 0 <= k < |items| ensures PlaceBecomes(items[k], bindings, ItemsAt(graph, "blocks").value[k]) {
        PlaceMeans(items[k], bindings);
      }
    }
  }
}
