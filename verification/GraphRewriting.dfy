/** The in-place walks over a graph, proved against the functions of FlowGraphs. */
module GraphRewriting {
  import opened Common
  import opened Digits
  import opened Pmt
  import opened SessionStreams
  import opened StreamBindings
  import opened FlowGraphs
  import opened GraphTheorems
  import opened RewrittenGraphs

  /** The loop over the keys that may name a block. */
  method FirstName(block: PropertyMap) returns (name: Option<string>)
    ensures name == OwnName(block)
  {
    var candidates := ["instance_name", "name"];
    var i := 0;
    while i < |candidates|
      invariant 0 <= i <= 2 && candidates == ["instance_name", "name"]
      invariant i > 0 ==> Blank(StringAt(block, "instance_name"))
      invariant i > 1 ==> Blank(StringAt(block, "name"))
    {
      name := StringAt(block, candidates[i]);
      if name.Some? && name.value != "" { return name; }
      i := i + 1;
    }
    return None;
  }

  /** The block type goes over the id, where there is one. */
  method RewriteTypeId(original: PropertyMap) returns (block: PropertyMap)
    ensures block == WithTypeId(original)
  {
    block := original;
    if "block" in block {
      var blockType := ValueToString(block["block"]);
      if blockType.Some? && blockType.value != "" {
        block := block["id" := StringValue(blockType.value)];
      }
    }
    if "id" !in block && "block_type" in block {
      var blockType := ValueToString(block["block_type"]);
      if blockType.Some? && blockType.value != "" {
        block := block["id" := StringValue(blockType.value)];
      }
    }
  }

  lemma TypeIdKeepsTheRest(block: PropertyMap)
    ensures MapAt(WithTypeId(block), "parameters") == MapAt(block, "parameters")
    ensures MapAt(WithTypeId(block), "raw_parameters") == MapAt(block, "raw_parameters")
    ensures OwnName(WithTypeId(block)) == OwnName(block)
    ensures !Blank(StringAt(block, "id")) ==> block["id"] == StringValue(StringAt(block, "id").value)
  {
  }

  method RewriteBlock(original: PropertyMap) returns (block: PropertyMap)
    ensures block == NormalizeBlock(original) && BlockBecomes(original, block)
  {
    BlockMeans(original, NormalizeBlock(original));
    hide WithTypeId, BlockBecomes;
    var studioNodeId := StringAt(original, "id");
    block := RewriteTypeId(original);
    TypeIdKeepsTheRest(original);
    var parameters, needsWrite := MergeParameters(MapAt(block, "parameters"), MapAt(block, "raw_parameters"));
    assert parameters == MergedParameters(original);
    assert needsWrite ==> parameters != map[] by {
      if needsWrite {
        var key :| key in MapAt(block, "raw_parameters") && key !in MapAt(block, "parameters");
        assert key in parameters;
      }
    }
    if "name" !in parameters && studioNodeId.Some? && studioNodeId.value != "" {
      parameters := parameters["name" := StringValue(studioNodeId.value)];
      needsWrite := true;
      assert "name" in parameters;
    }
    if "name" !in parameters {
      var name := FirstName(block);
      if name.Some? {
        parameters := parameters["name" := StringValue(name.value)];
        needsWrite := true;
        assert "name" in parameters;
      }
    }
    assert parameters == NamedParameters(original);
    if needsWrite || parameters != map[] {
      block := block["parameters" := MapValue(parameters)];
    }
  }

  /** Reads a token of digits, as `std::stoll` does: too large a number is an error. */
  method ReadNumber(digits: string) returns (value: Result<Value, GraphError>)
    requires AllDigits(digits)
    ensures value == ParseNumber(digits)
  {
    var number := 0;
    var i := 0;
    while i < |digits|
      invariant 0 <= i <= |digits| && number == Number(digits[..i])
    {
      assert digits[..i + 1][..i] == digits[..i];
      assert IsDigit(digits[i]);
      number := 10 * number + (digits[i] as int - '0' as int);
      i := i + 1;
    }
    assert digits[..i] == digits;
    return if number <= INT64_MAX then Ok(IntValue(Int64, number)) else Err(PortNumberOutOfRange);
  }

  /** The position just after the last 't', or 0. */
  method AfterLastTAt(token: string) returns (begin: nat)
    ensures begin <= |token| && token[begin..] == AfterLastT(token)
  {
    begin := |token|;
    assert token[..|token|] == token && token[|token|..] == [];
    while begin > 0 && token[begin - 1] != 't'
      invariant 0 <= begin <= |token|
      invariant AfterLastT(token) == AfterLastT(token[..begin]) + token[begin..]
    {
      assert token[..begin][..begin - 1] == token[..begin - 1];
      assert token[begin - 1..] == [token[begin - 1]] + token[begin..];
      begin := begin - 1;
    }
  }

  method RewritePort(token: string) returns (value: Result<Value, GraphError>)
    ensures value == NormalizePort(token)
    ensures value.Ok? <==> PortFits(token)
    ensures value.Ok? ==> PortBecomes(token, value.value)
  {
    if NormalizePort(token).Ok? { PortMeans(token, NormalizePort(token).value); } else { PortNormalizesIff(token); }
    hide PortFits, PortBecomes;
    if token == "in" || token == "out" { return Ok(IntValue(Int64, 0)); }
    if AllDigits(token) { value := ReadNumber(token); return; }
    if |token| > 2 && ("in" <= token || "out" <= token) {
      var begin := AfterLastTAt(token);
      var suffix := token[begin..];
      if AllDigits(suffix) { value := ReadNumber(suffix); return; }
    }
    return Ok(StringValue(token));
  }

  method RewriteConnection(original: Value) returns (connection: Result<Value, GraphError>, changed: bool)
    ensures connection == NormalizeConnection(original)
    ensures connection.Ok? <==> LinkFits(original)
    ensures connection.Ok? ==> LinkBecomes(original, connection.value) && (changed <==> connection.value != original)
  {
    if NormalizeConnection(original).Ok? { ConnectionMeans(original, NormalizeConnection(original).value); }
    ConnectionNormalizesIff(original);
    hide LinkFits, LinkBecomes, PortFits, PortBecomes;
    if original.TensorValue? {
      var items := original.items;
      changed := false;
      if |items| >= 4 {
        if items[1].StringValue? {
          var normalized := RewritePort(items[1].text);
          if normalized.Err? { return Err(PortNumberOutOfRange), false; }
          changed := changed || normalized.value != items[1];
          items := items[1 := normalized.value];
        }
        if items[3].StringValue? {
          var normalized := RewritePort(items[3].text);
          if normalized.Err? { return Err(PortNumberOutOfRange), false; }
          changed := changed || normalized.value != items[3];
          items := items[3 := normalized.value];
        }
        assert items == original.items[1 := NormalizeEnd(original.items[1]).value][3 := NormalizeEnd(original.items[3]).value];
        assert TensorValue(items) == original ==> items == original.items;
      }
      return Ok(TensorValue(items)), changed;
    }
    if !original.MapValue? { return Ok(original), false; }
    var fields := original.fields;
    var sourceBlock, sourcePort := StringAt(fields, "source_block"), StringAt(fields, "source_port_token");
    var destBlock, destPort := StringAt(fields, "dest_block"), StringAt(fields, "dest_port_token");
    if sourceBlock.None? || sourcePort.None? || destBlock.None? || destPort.None? { return Ok(original), false; }
    var source := RewritePort(sourcePort.value);
    if source.Err? { return Err(PortNumberOutOfRange), false; }
    var dest := RewritePort(destPort.value);
    if dest.Err? { return Err(PortNumberOutOfRange), false; }
    return Ok(TensorValue([StringValue(sourceBlock.value), source.value, StringValue(destBlock.value), dest.value])), true;
  }

  /** A parsed graph on its way to the loader; the walks rewrite it in place. */
  class FlowGraph {
    var root: PropertyMap

    constructor (parsed: PropertyMap)
      ensures root == parsed
    {
      root := parsed;
    }

    method NormalizeBlockList() returns (changed: bool)
      modifies this
      ensures root == NormalizeBlocks(old(root))
      ensures !changed ==> root == old(root)
    {
      changed := false;
      if ItemsAt(root, "blocks").None? { return; }
      var items := root["blocks"].items;
      var i := 0;
      while i < |items|
        invariant 0 <= i <= |items| && |items| == |old(root)["blocks"].items|
        invariant forall k :: 0 <= k < i ==> items[k] == NormalizeItem(old(root)["blocks"].items[k])
        invariant forall k :: i <= k < |items| ==> items[k] == old(root)["blocks"].items[k]
        invariant !changed ==> items == old(root)["blocks"].items
        invariant root == old(root)
      {
        if items[i].MapValue? {
          var block := RewriteBlock(items[i].fields);
          changed := changed || block != items[i].fields;
          items := items[i := MapValue(block)];
        }
        i := i + 1;
      }
      assert items == NormalizeItems(old(root)["blocks"].items);
      root := root["blocks" := TensorValue(items)];
    }

    /** Stops at the first port number that does not fit; the root is then of no further use. */
    method NormalizeConnectionList() returns (outcome: Result<bool, GraphError>)
      modifies this
      ensures match NormalizeLinks(old(root))
              case Ok(normal) => outcome.Ok? && root == normal && (!outcome.value ==> root == old(root))
              case Err(error) => outcome == Err(error)
    {
      if ItemsAt(root, "connections").None? { return Ok(false); }
      var items := root["connections"].items;
      ghost var original := items;
      var changed, i := false, 0;
      while i < |items|
        invariant 0 <= i <= |items| == |original|
        invariant forall k :: 0 <= k < i ==> NormalizeConnection(original[k]) == Ok(items[k])
        invariant forall k :: i <= k < |items| ==> items[k] == original[k]
        invariant !changed ==> items == original
        invariant root == old(root)
      {
        var connection, differs := RewriteConnection(items[i]);
        if connection.Err? {
          FailingConnection(original, i);
          return Err(PortNumberOutOfRange);
        }
        items := items[i := connection.value];
        changed := differs || changed;
        i := i + 1;
      }
      AllConnections(original, items);
      root := root["connections" := TensorValue(items)];
      return Ok(changed);
    }

    method Inject(bindings: seq<StreamBinding>) returns (outcome: Result<bool, GraphError>)
      modifies this
      ensures match InjectBindings(old(root), bindings)
              case Ok(injected) => outcome.Ok? && root == injected && (!outcome.value ==> root == old(root))
              case Err(error) => outcome == Err(error)
    {
      hide Receives, InjectedIds, InjectItem;
      if |bindings| == 0 || ItemsAt(root, "blocks").None? { return Ok(false); }
      var items := root["blocks"].items;
      ghost var original := items;
      NoItemsNoIds(bindings);
      assert original[..0] == [];
      var injectedIds: set<string> := {};
      var changed, i := false, 0;
      while i < |items|
        invariant 0 <= i <= |items| == |original|
        invariant forall k :: 0 <= k < i ==> items[k] == InjectItem(original[k], bindings)
        invariant forall k :: i <= k < |items| ==> items[k] == original[k]
        invariant injectedIds == InjectedIds(original[..i], bindings)
        invariant !changed ==> items == original
        invariant root == old(root)
      {
        OneMoreId(original, bindings, i);
        ScalarsReceiveNothing(items[i], bindings);
        if items[i].MapValue? {
          var block, found := InjectBlock(items[i].fields, bindings);
          if found.Some? {
            items := items[i := MapValue(block)];
            injectedIds := injectedIds + {bindings[found.value].plan.streamId};
            changed := true;
          }
        }
        i := i + 1;
      }
      assert original[..i] == original;
      if |injectedIds| != |bindings| { return Err(BindingNotInjected); }
      assert items == InjectItems(original, bindings);
      root := root["blocks" := TensorValue(items)];
      return Ok(changed);
    }
  }

  /** The inner loop of the injection: the first binding made for the block's name is written into it. */
  method InjectBlock(original: PropertyMap, bindings: seq<StreamBinding>) returns (block: PropertyMap, found: Option<nat>)
    ensures found == Receives(MapValue(original), bindings)
    ensures MapValue(block) == InjectItem(MapValue(original), bindings)
    ensures found.Some? ==> found.value < |bindings|
    ensures found.None? ==> block == original
  {
    block := original;
    var parameters := MapAt(block, "parameters");
    var name := StringAt(parameters, "name");
    if (name.None? || name.value == "") && "instance_name" in block {
      name := ValueToString(block["instance_name"]);
    }
    if name.None? || name.value == "" { return block, None; }
    var i := 0;
    while i < |bindings|
      invariant 0 <= i <= |bindings|
      invariant forall k :: 0 <= k < i ==> bindings[k].plan.blockInstanceName != name.value
    {
      if bindings[i].plan.blockInstanceName == name.value {
        return block["parameters" := MapValue(parameters["endpoint" := StringValue(bindings[i].internal.endpoint)])], Some(i);
      }
      i := i + 1;
    }
    return block, None;
  }

  lemma NoItemsNoIds(bindings: seq<StreamBinding>)
    ensures InjectedIds([], bindings) == {}
  {
  }

  lemma ScalarsReceiveNothing(item: Value, bindings: seq<StreamBinding>)
    ensures !item.MapValue? ==> Receives(item, bindings) == None && InjectItem(item, bindings) == item
  {
  }

  lemma OneMoreId(items: seq<Value>, bindings: seq<StreamBinding>, i: nat)
    requires i < |items|
    ensures InjectedIds(items[..i + 1], bindings) == InjectedIds(items[..i], bindings) +
      match Receives(items[i], bindings) case Some(b) => {bindings[b].plan.streamId} case None => {}
  {
    hide Receives;
    var longer, shorter := items[..i + 1], items[..i];
    assert longer == shorter + [items[i]];
    assert forall k :: 0 <= k < i ==> longer[k] == shorter[k];
    assert longer[i] == items[i];
  }

  lemma {:induction false} AllConnections(original: seq<Value>, normal: seq<Value>)
    requires |original| == |normal|
    requires forall k :: 0 <= k < |original| ==> NormalizeConnection(original[k]) == Ok(normal[k])
    ensures NormalizeConnections(original) == Ok(normal)
  {
    hide NormalizeConnection;
    if original != [] {
      AllConnections(original[1..], normal[1..]);
      assert normal == [normal[0]] + normal[1..];
    }
  }

  lemma {:induction false} FailingConnection(original: seq<Value>, i: nat)
    requires i < |original| && NormalizeConnection(original[i]).Err?
    ensures NormalizeConnections(original) == Err(PortNumberOutOfRange)
  {
    hide NormalizeConnection;
    if i > 0 {
      FailingConnection(original[1..], i - 1);
    }
  }

  /**
   * The whole rewriting of a stored text. `None` stands for text that does not parse, which the code
   * passes on unread; `rewritten` says whether the graph is written out again.
   */
  method NormalizeGraphContent(yaml: Yaml, content: string, bindings: seq<StreamBinding>)
    returns (graph: Result<Option<PropertyMap>, GraphError>, rewritten: bool)
    ensures graph == LoadedGraph(yaml, content, bindings)
    ensures graph.Ok? && !rewritten ==> graph.value == yaml(content)
    ensures graph.Ok? ==>
      match yaml(content)
      case None => graph.value.None?
      case Some(root) => graph.value.Some? && GraphBecomes(root, bindings, graph.value.value)
  {
    if yaml(content).Some? && NormalizeGraph(yaml(content).value, bindings).Ok? { GraphMeans(yaml(content).value, bindings); }
    hide GraphBecomes;
    var parsed := yaml(content);
    if parsed.None? { return Ok(None), false; }
    var document := new FlowGraph(parsed.value);
    var blocksChanged := document.NormalizeBlockList();
    var connections := document.NormalizeConnectionList();
    if connections.Err? { return Err(connections.error), false; }
    var injected := document.Inject(bindings);
    if injected.Err? { return Err(injected.error), false; }
    return Ok(Some(document.root)), blocksChanged || connections.value || injected.value;
  }
}
