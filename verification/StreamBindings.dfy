/** Internal stream bindings and the allocator that hands out their loopback ports. */
module StreamBindings {
  import opened Common
  import opened Digits
  import opened SessionStreams

  type Port = nat

  datatype InternalBinding = InternalBinding(protocol: string, host: string, port: Port, path: string, endpoint: string)

  datatype BrowserStream = BrowserStream(
    id: string, blockInstanceName: string, transport: string, payloadFormat: string, path: string, ready: bool)

  datatype StreamBinding = StreamBinding(plan: StreamPlan, internal: InternalBinding, browser: BrowserStream)

  function HttpBinding(port: Port): InternalBinding {
    InternalBinding("http", "127.0.0.1", port, "/snapshot", "http://127.0.0.1:" + Decimal(port) + "/snapshot")
  }

  function WebSocketBinding(port: Port): InternalBinding {
    InternalBinding("websocket", "127.0.0.1", port, "/stream", "ws://127.0.0.1:" + Decimal(port) + "/stream")
  }

  /** An endpoint tells its port and its protocol: bindings of different ports never share an endpoint. */
  lemma EndpointsIdentifyBindings(p: Port, q: Port)
    ensures HttpBinding(p).endpoint == HttpBinding(q).endpoint ==> p == q
    ensures WebSocketBinding(p).endpoint == WebSocketBinding(q).endpoint ==> p == q
    ensures HttpBinding(p).endpoint != WebSocketBinding(q).endpoint
  {
    var h, w := "http://127.0.0.1:", "ws://127.0.0.1:";
    forall a: string, b: string ensures (h + a + b)[|h|..|h| + |a|] == a && (w + a + b)[|w|..|w| + |a|] == a { }
    assert HttpBinding(p).endpoint[0] == 'h' && WebSocketBinding(q).endpoint[0] == 'w';
    if HttpBinding(p).endpoint == HttpBinding(q).endpoint {
      assert |Decimal(p)| == |Decimal(q)|;
      DecimalIsInjective(p, q);
    }
    if WebSocketBinding(p).endpoint == WebSocketBinding(q).endpoint {
      assert |Decimal(p)| == |Decimal(q)|;
      DecimalIsInjective(p, q);
    }
  }

  function ToBrowserStream(plan: StreamPlan): BrowserStream {
    BrowserStream(plan.streamId, plan.blockInstanceName, plan.transport, plan.payloadFormat, plan.path, plan.ready)
  }

  /** The binding of one planned stream once a port has been found for it. */
  function BindStream(plan: StreamPlan, port: Port): StreamBinding {
    var ready := plan.(ready := true);
    StreamBinding(ready, if plan.transport == "websocket" then WebSocketBinding(port) else HttpBinding(port),
                  ToBrowserStream(ready))
  }

  /**
   * The binding of a planned stream, field by field: a websocket stream is served over a websocket,
   * any other over HTTP, by this host on the port that was found; the client is told what was planned.
   */
  predicate Wired(binding: StreamBinding) {
    var plan, internal, browser := binding.plan, binding.internal, binding.browser;
    && internal.host == "127.0.0.1"
    && (if plan.transport == "websocket" then
          && internal.protocol == "websocket" && internal.path == "/stream"
          && internal.endpoint == "ws://" + internal.host + ":" + Decimal(internal.port) + internal.path
        else
          && internal.protocol == "http" && internal.path == "/snapshot"
          && internal.endpoint == "http://" + internal.host + ":" + Decimal(internal.port) + internal.path)
    && browser.id == plan.streamId && browser.blockInstanceName == plan.blockInstanceName
    && browser.transport == plan.transport && browser.payloadFormat == plan.payloadFormat
    && browser.path == plan.path && browser.ready && plan.ready
  }

  /** Binding a stream keeps its plan, which becomes ready, uses the given port, and wires it up. */
  lemma BoundIsWired(plan: StreamPlan, port: Port)
    ensures var binding := BindStream(plan, port);
      Wired(binding) && binding.plan == plan.(ready := true) && binding.internal.port == port
  {
    assert "http://127.0.0.1:" == "http://" + "127.0.0.1" + ":";
    assert "ws://127.0.0.1:" == "ws://" + "127.0.0.1" + ":";
  }

  const MAX_ATTEMPTS: nat := 64

  /**
   * What the operating system answers to successive requests for an ephemeral port; `None` is a
   * request that throws, and so is every request past the end.
   */
  type PortOffers = seq<Option<Port>>

  /** The first offered port that is not taken, within the given number of attempts. */
  function FirstFree(offers: PortOffers, taken: set<Port>, attempts: nat): (port: Option<Port>)
    ensures port.Some? ==> port.value !in taken && Some(port.value) in offers
  {
    if attempts == 0 || offers == [] || offers[0].None? then None
    else if offers[0].value !in taken then offers[0]
    else FirstFree(offers[1..], taken, attempts - 1)
  }

  /** What FirstFree gives: the first offer that is free, if a free offer comes before a refusal and within the attempts. */
  lemma {:induction false} FirstFreeIsFirst(offers: PortOffers, taken: set<Port>, attempts: nat, k: nat)
    requires k <= attempts && k <= |offers| && forall j :: 0 <= j < k ==> offers[j].Some? && offers[j].value in taken
    ensures k < attempts && k < |offers| && offers[k].Some? && offers[k].value !in taken ==>
      FirstFree(offers, taken, attempts) == offers[k]
    ensures k == attempts || k == |offers| || offers[k].None? ==> FirstFree(offers, taken, attempts) == None
  {
    if k > 0 {
      assert offers[0].value in taken;
      assert forall j :: 0 <= j < |offers| - 1 ==> offers[1..][j] == offers[j + 1];
      FirstFreeIsFirst(offers[1..], taken, attempts - 1, k - 1);
    }
  }

  /** The offers made while the port of one stream is sought. */
  function OffersFor(offers: seq<PortOffers>, i: nat): PortOffers {
    if i < |offers| then offers[i] else []
  }

  /** The ports found for the first `count` streams, one after the other, up to the first stream that gets none. */
  function Granted(offers: seq<PortOffers>, taken: set<Port>, count: nat): (ports: seq<Port>)
    ensures |ports| <= count
  {
    if count == 0 then []
    else
      var earlier := Granted(offers, taken, count - 1);
      if |earlier| < count - 1 then earlier
      else match FirstFree(OffersFor(offers, count - 1), taken + Elements(earlier), MAX_ATTEMPTS)
        case Some(port) => earlier + [port]
        case None => earlier
  }

  lemma GrantedStep(offers: seq<PortOffers>, taken: set<Port>, i: nat)
    requires |Granted(offers, taken, i)| == i
    ensures var earlier := Granted(offers, taken, i);
      Granted(offers, taken, i + 1) == match FirstFree(OffersFor(offers, i), taken + Elements(earlier), MAX_ATTEMPTS)
        case Some(port) => earlier + [port]
        case None => earlier
  {
  }

  lemma {:induction false} GrantedStops(offers: seq<PortOffers>, taken: set<Port>, i: nat, count: nat)
    requires i <= count && |Granted(offers, taken, i)| < i
    ensures Granted(offers, taken, count) == Granted(offers, taken, i)
    decreases count
  {
    if i < count { GrantedStops(offers, taken, i, count - 1); }
  }

  function PortList(bindings: seq<StreamBinding>): seq<Port> {
    seq(|bindings|, i requires 0 <= i < |bindings| => bindings[i].internal.port)
  }

  lemma PortListElements(bindings: seq<StreamBinding>)
    ensures Elements(PortList(bindings)) == PortsOf(bindings)
  {
    forall port | port in PortsOf(bindings) ensures port in PortList(bindings) {
      var i :| 0 <= i < |bindings| && bindings[i].internal.port == port;
      assert PortList(bindings)[i] == port;
    }
    forall port | port in PortList(bindings) ensures port in PortsOf(bindings) {
      var i :| 0 <= i < |PortList(bindings)| && PortList(bindings)[i] == port;
      assert bindings[i].internal.port == port;
    }
  }

  function PortsOf(bindings: seq<StreamBinding>): set<Port> {
    set i | 0 <= i < |bindings| :: bindings[i].internal.port
  }

  lemma NoBindingsNoPorts()
    ensures PortsOf([]) == {}
  {
  }

  lemma PortsOfAppend(bindings: seq<StreamBinding>, binding: StreamBinding)
    ensures PortsOf(bindings + [binding]) == PortsOf(bindings) + {binding.internal.port}
  {
    var longer := bindings + [binding];
    assert longer[|bindings|] == binding;
    forall port | port in PortsOf(bindings) ensures port in PortsOf(longer) {
      var i :| 0 <= i < |bindings| && bindings[i].internal.port == port;
      assert longer[i].internal.port == port;
    }
  }

  lemma PortsOfPrefix(bindings: seq<StreamBinding>, k: nat)
    requires k < |bindings|
    ensures PortsOf(bindings[..k + 1]) == PortsOf(bindings[..k]) + {bindings[k].internal.port}
  {
    assert bindings[..k + 1] == bindings[..k] + [bindings[k]];
    PortsOfAppend(bindings[..k], bindings[k]);
  }

  lemma {:induction false} PortsCount(bindings: seq<StreamBinding>)
    ensures |PortsOf(bindings)| <= |bindings|
  {
    if bindings == [] {
      NoBindingsNoPorts();
    } else {
      var front, last := bindings[..|bindings| - 1], bindings[|bindings| - 1];
      PortsCount(front);
      assert bindings == front + [last];
      PortsOfAppend(front, last);
    }
  }

  function PlansOf(bindings: seq<StreamBinding>): seq<StreamPlan> {
    seq(|bindings|, i requires 0 <= i < |bindings| => bindings[i].plan)
  }

  /** Bindings that use no port twice. */
  ghost predicate DistinctPorts(bindings: seq<StreamBinding>) {
    forall i, j :: 0 <= i < j < |bindings| ==> bindings[i].internal.port != bindings[j].internal.port
  }

  class StreamBindingAllocator {
    var allocatedPorts: set<Port>

    constructor ()
      ensures allocatedPorts == {}
    {
      allocatedPorts := {};
    }

    /** Tries at most 64 offers; a failed attempt leaves the set of allocated ports alone. */
    method AllocateHttp(offers: PortOffers) returns (binding: Option<InternalBinding>)
      modifies this
      ensures match FirstFree(offers, old(allocatedPorts), 64)
              case None => binding == None && allocatedPorts == old(allocatedPorts)
              case Some(port) =>
                && binding == Some(InternalBinding("http", "127.0.0.1", port, "/snapshot",
                                                   "http://127.0.0.1:" + Decimal(port) + "/snapshot"))
                && allocatedPorts == old(allocatedPorts) + {port}
    {
      var attempt := 0;
      while attempt < MAX_ATTEMPTS
        invariant attempt <= MAX_ATTEMPTS && attempt <= |offers|
        invariant allocatedPorts == old(allocatedPorts)
        invariant FirstFree(offers, allocatedPorts, MAX_ATTEMPTS)
               == FirstFree(offers[attempt..], allocatedPorts, MAX_ATTEMPTS - attempt)
      {
        if attempt == |offers| || offers[attempt].None? { return None; }
        var port := offers[attempt].value;
        assert offers[attempt..][1..] == offers[attempt + 1..];
        if port !in allocatedPorts {
          allocatedPorts := allocatedPorts + {port};
          return Some(HttpBinding(port));
        }
        attempt := attempt + 1;
      }
      return None;
    }

    method AllocateWebSocket(offers: PortOffers) returns (binding: Option<InternalBinding>)
      modifies this
      ensures match FirstFree(offers, old(allocatedPorts), 64)
              case None => binding == None && allocatedPorts == old(allocatedPorts)
              case Some(port) =>
                && binding == Some(InternalBinding("websocket", "127.0.0.1", port, "/stream",
                                                   "ws://127.0.0.1:" + Decimal(port) + "/stream"))
                && allocatedPorts == old(allocatedPorts) + {port}
    {
      var attempt := 0;
      while attempt < MAX_ATTEMPTS
        invariant attempt <= MAX_ATTEMPTS && attempt <= |offers|
        invariant allocatedPorts == old(allocatedPorts)
        invariant FirstFree(offers, allocatedPorts, MAX_ATTEMPTS)
               == FirstFree(offers[attempt..], allocatedPorts, MAX_ATTEMPTS - attempt)
      {
        if attempt == |offers| || offers[attempt].None? { return None; }
        var port := offers[attempt].value;
        assert offers[attempt..][1..] == offers[attempt + 1..];
        if port !in allocatedPorts {
          allocatedPorts := allocatedPorts + {port};
          return Some(WebSocketBinding(port));
        }
        attempt := attempt + 1;
      }
      return None;
    }

    method Release(binding: InternalBinding)
      modifies this
      ensures allocatedPorts == old(allocatedPorts) - {binding.port}
    {
      allocatedPorts := allocatedPorts - {binding.port};
    }
  }
}
