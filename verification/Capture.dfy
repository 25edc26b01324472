/** From a decoded packet to a flow: direction, local sockets and the connection key. */
module Packets {
  import opened Net
  import opened LedgerLaws

  type Payload = seq<bv8>

  datatype Transport =
    | TcpSegment(sourcePort: U16, destinationPort: U16, payload: Payload)
    | UdpDatagram(sourcePort: U16, destinationPort: U16)
    | OtherTransport

  /** `outgoing` marks a packet that a Linux cooked capture reports as sent by this host. */
  datatype Packet = Packet(source: IpAddr, destination: IpAddr, transport: Transport, bytes: nat, outgoing: bool)

  datatype FlowKey = FlowKey(localIp: IpAddr, localPort: U16, peerIp: IpAddr, peerPort: U16)

  function PortsOf(t: Transport): Option<(U16, U16, TransportProtocol)> {
    match t
    case TcpSegment(s, d, _) => Some((s, d, Tcp))
    case UdpDatagram(s, d) => Some((s, d, Udp))
    case OtherTransport => None
  }

  function ParseWithPayload(p: Packet, localIps: set<IpAddr>): Option<(Flow, Option<Payload>)> {
    var sourceLocal, destinationLocal := p.source in localIps, p.destination in localIps;
    if sourceLocal && destinationLocal && p.outgoing then None
    else if !sourceLocal && !destinationLocal then None
    else
      var direction := if sourceLocal then Outbound else Inbound;
      var localIp := if sourceLocal then p.source else p.destination;
      var peer := if sourceLocal then p.destination else p.source;
      var payload := if p.transport.TcpSegment? && p.transport.payload != [] then Some(p.transport.payload) else None;
      match PortsOf(p.transport)
      case None => Some((Flow(direction, peer, None, p.bytes, None, None, None), payload))
      case Some((sourcePort, destinationPort, protocol)) =>
        var port := if direction == Outbound then sourcePort else destinationPort;
        var peerPort := if direction == Outbound then destinationPort else sourcePort;
        Some((Flow(direction, peer, Some(peerPort), p.bytes,
                   Some(LocalSocket(localIp, port, protocol)),
                   if sourceLocal && destinationLocal
                   then Some(LocalSocket(p.destination, destinationPort, protocol)) else None,
                   None),
              payload))
  }

  function FlowKeyFrom(flow: Flow): Option<FlowKey> {
    if flow.localSocket.None? || flow.localSocket.value.protocol != Tcp || flow.peerPort.None? then None
    else Some(FlowKey(flow.localSocket.value.ip, flow.localSocket.value.port, flow.peer, flow.peerPort.value))
  }

  /** Every parsed flow has the shape that keeps the statistics balanced. */
  lemma ParsedFlowsAreWellFormed(p: Packet, localIps: set<IpAddr>)
    requires ParseWithPayload(p, localIps).Some?
    ensures var (flow, payload) := ParseWithPayload(p, localIps).value;
            && WellFormed(flow)
            && (flow.peerLocalSocket.Some? <==>
                  p.source in localIps && p.destination in localIps && !p.transport.OtherTransport?)
            && (payload.Some? ==> FlowKeyFrom(flow).Some?)
            && flow.bytes == p.bytes
  {
  }

  /** Where a flow with ports says its packet came from and went to. */
  function EndsOf(flow: Flow): ((IpAddr, U16), (IpAddr, U16))
    requires flow.localSocket.Some? && flow.peerPort.Some?
  {
    var near, far := (flow.localSocket.value.ip, flow.localSocket.value.port), (flow.peer, flow.peerPort.value);
    if flow.direction == Outbound then (near, far) else (far, near)
  }

  /**
   * A packet is dropped exactly when no end is local or an outgoing one stays local; otherwise the
   * flow gives both ends back, with this host's own end as the local socket.
   */
  lemma ParsingKeepsTheEnds(p: Packet, localIps: set<IpAddr>)
    ensures ParseWithPayload(p, localIps).None? <==>
              {p.source, p.destination} !! localIps || ({p.source, p.destination} <= localIps && p.outgoing)
    ensures ParseWithPayload(p, localIps).Some? ==>
              var flow := ParseWithPayload(p, localIps).value.0;
              && (flow.direction == Outbound <==> p.source in localIps)
              && flow.localSocket.Some? == flow.peerPort.Some? == PortsOf(p.transport).Some?
              && flow.peer == (if flow.direction == Outbound then p.destination else p.source)
              && (flow.localSocket.Some? ==>
                    var (sourcePort, destinationPort, protocol) := PortsOf(p.transport).value;
                    && EndsOf(flow) == ((p.source, sourcePort), (p.destination, destinationPort))
                    && flow.localSocket.value.ip in localIps
                    && flow.localSocket.value.protocol == protocol
                    && (flow.peerLocalSocket.Some? ==>
                          flow.peerLocalSocket.value == LocalSocket(flow.peer, flow.peerPort.value, protocol)
                          && flow.peer in localIps))
              && flow.domain == None
              && (forall data :: ParseWithPayload(p, localIps).value.1 == Some(data) <==>
                    p.transport.TcpSegment? && data != [] && p.transport.payload == data)
  {
  }

  /** A connection is known by both ends of a TCP packet, this host's end first; no other packet has a key. */
  lemma KeysNameBothEnds(p: Packet, localIps: set<IpAddr>)
    requires ParseWithPayload(p, localIps).Some?
    ensures var key := FlowKeyFrom(ParseWithPayload(p, localIps).value.0);
            && (key.Some? <==> p.transport.TcpSegment?)
            && (key.Some? && p.source in localIps ==>
                  key.value == FlowKey(p.source, p.transport.sourcePort, p.destination, p.transport.destinationPort))
            && (key.Some? && p.source !in localIps ==>
                  key.value == FlowKey(p.destination, p.transport.destinationPort, p.source, p.transport.sourcePort))
  {
  }

  function Reverse(p: Packet): Packet {
    Packet(p.destination, p.source,
           match p.transport
           case TcpSegment(s, d, payload) => TcpSegment(d, s, payload)
           case UdpDatagram(s, d) => UdpDatagram(d, s)
           case OtherTransport => OtherTransport,
           p.bytes, p.outgoing)
  }

  /** A packet and its reverse share a key exactly when one end is local, or the ends coincide. */
  lemma ReverseSharesKey(p: Packet, localIps: set<IpAddr>)
    requires p.transport.TcpSegment?
    requires ParseWithPayload(p, localIps).Some?
    ensures ParseWithPayload(Reverse(p), localIps).Some?
    ensures FlowKeyFrom(ParseWithPayload(p, localIps).value.0)
              == FlowKeyFrom(ParseWithPayload(Reverse(p), localIps).value.0)
            <==> (p.source in localIps) != (p.destination in localIps)
                 || (p.source == p.destination && p.transport.sourcePort == p.transport.destinationPort)
  {
  }
}

/** One domain look-up per connection: a cache that may forget, in front of a parser. */
module DomainMemo {
  import opened Net
  import opened Packets

  type Parser = Payload -> Option<string>

  datatype FlowEntry = Resolved(domain: string) | NoDomain

  type Cache = map<FlowKey, FlowEntry>

  function EntryOf(answer: Option<string>): FlowEntry {
    if answer.Some? then Resolved(answer.value) else NoDomain
  }

  function DomainOf(entry: FlowEntry): Option<string> {
    if entry.Resolved? then Some(entry.domain) else None
  }

  class FlowTable {
    var cache: Cache

    constructor ()
      ensures cache == map[]
    {
      cache := map[];
    }

    method Lookup(key: FlowKey) returns (entry: Option<FlowEntry>)
      ensures entry == if key in cache then Some(cache[key]) else None
    {
      entry := if key in cache then Some(cache[key]) else None;
    }

    method InsertResolved(key: FlowKey, domain: string)
      modifies this
      ensures cache == old(cache)[key := Resolved(domain)]
    {
      cache := cache[key := Resolved(domain)];
    }

    method InsertNoDomain(key: FlowKey)
      modifies this
      ensures cache == old(cache)[key := NoDomain]
    {
      cache := cache[key := NoDomain];
    }
  }

  // ----- The reference: the packets seen, and the keys forgotten -----

  datatype Event = Saw(packet: Packet) | Forgot(key: FlowKey)

  /** The key and payload of a packet that asks for a domain: outbound TCP with a payload. */
  function Question(p: Packet, localIps: set<IpAddr>): Option<(FlowKey, Payload)> {
    match ParseWithPayload(p, localIps)
    case None => None
    case Some((flow, payload)) =>
      if flow.direction == Outbound && payload.Some? && FlowKeyFrom(flow).Some?
      then Some((FlowKeyFrom(flow).value, payload.value)) else None
  }

  predicate Asks(e: Event, localIps: set<IpAddr>, key: FlowKey) {
    e.Saw? && Question(e.packet, localIps).Some? && Question(e.packet, localIps).value.0 == key
  }

  /** Event `i` is the first to ask about `key` since the key was last forgotten. */
  ghost predicate Founder(events: seq<Event>, localIps: set<IpAddr>, key: FlowKey, i: nat) {
    && i < |events|
    && Asks(events[i], localIps, key)
    && (forall j :: i < j < |events| ==> events[j] != Forgot(key))
    && (forall j :: 0 <= j < i && Asks(events[j], localIps, key) ==>
          exists k :: j < k < i && events[k] == Forgot(key))
  }

  ghost function AnswerOf(e: Event, localIps: set<IpAddr>, parser: Parser): Option<string> {
    if e.Saw? && Question(e.packet, localIps).Some? then parser(Question(e.packet, localIps).value.1) else None
  }

  /** What a packet asks: exactly a TCP packet with a payload that this host sends and the capture does not drop. */
  lemma QuestionsExactly(p: Packet, localIps: set<IpAddr>, key: FlowKey, payload: Payload)
    ensures Question(p, localIps) == Some((key, payload)) <==>
              && p.source in localIps && !(p.destination in localIps && p.outgoing)
              && p.transport.TcpSegment? && payload != [] && p.transport.payload == payload
              && key == FlowKey(p.source, p.transport.sourcePort, p.destination, p.transport.destinationPort)
  {
  }

  // ----- The cache as it evolves -----

  function Remember(cache: Cache, localIps: set<IpAddr>, parser: Parser, e: Event): Cache {
    match e
    case Forgot(key) => cache - {key}
    case Saw(packet) =>
      var question := Question(packet, localIps);
      if question.None? || question.value.0 in cache then cache
      else cache[question.value.0 := EntryOf(parser(question.value.1))]
  }

  function CacheAfter(events: seq<Event>, localIps: set<IpAddr>, parser: Parser): Cache {
    if events == [] then map[]
    else Remember(CacheAfter(events[..|events| - 1], localIps, parser), localIps, parser, events[|events| - 1])
  }

  /** The domain reported for `flow`, given what is cached before its packet. */
  function Report(cache: Cache, flow: Flow, payload: Option<Payload>, parser: Parser): Option<string> {
    var key := FlowKeyFrom(flow);
    if flow.direction == Outbound && payload.None? then None
    else if key.Some? && key.value in cache then DomainOf(cache[key.value])
    else if flow.direction == Outbound then parser(payload.value)
    else None
  }

  /** Parses a packet, answering from the table when it can and filling it when it cannot. */
  method ParseWithDomainParser(p: Packet, localIps: set<IpAddr>, parser: Parser, table: FlowTable?)
    returns (parsed: Option<Flow>)
    modifies table
    ensures parsed.Some? <==> ParseWithPayload(p, localIps).Some?
    ensures table != null ==> table.cache == Remember(old(table.cache), localIps, parser, Saw(p))
    ensures parsed.Some? ==>
      var (flow, payload) := ParseWithPayload(p, localIps).value;
      parsed.value == flow.(domain := Report(if table == null then map[] else old(table.cache), flow, payload, parser))
  {
    var bare := ParseWithPayload(p, localIps);
    if bare.None? {
      return None;
    }
    var (flow, payload) := bare.value;
    var key := FlowKeyFrom(flow);
    if flow.direction != Outbound {
      if table != null && key.Some? {
        var entry := table.Lookup(key.value);
        if entry.Some? && entry.value.Resolved? {
          return Some(flow.(domain := Some(entry.value.domain)));
        }
      }
      return Some(flow);
    }
    if payload.None? {
      return Some(flow);
    }
    if table != null && key.Some? {
      var entry := table.Lookup(key.value);
      if entry.Some? {
        return Some(flow.(domain := DomainOf(entry.value)));
      }
    }
    var resolved := parser(payload.value);
    if table != null && key.Some? {
      match resolved {
        case Some(domain) => table.InsertResolved(key.value, domain);
        case None => table.InsertNoDomain(key.value);
      }
    }
    return Some(flow.(domain := resolved));
  }

  // ----- What the cache holds -----

  lemma FounderIsUnique(events: seq<Event>, localIps: set<IpAddr>, key: FlowKey, i: nat, j: nat)
    requires Founder(events, localIps, key, i) && Founder(events, localIps, key, j)
    ensures i == j
  {
  }

  lemma FounderExtends(events: seq<Event>, e: Event, localIps: set<IpAddr>, key: FlowKey, i: nat)
    ensures i < |events| ==>
      (Founder(events + [e], localIps, key, i) <==> Founder(events, localIps, key, i) && e != Forgot(key))
  {
    var all := events + [e];
    if i < |events| {
      assert forall j :: 0 <= j < |events| ==> all[j] == events[j];
      assert all[|events|] == e;
    }
  }

  /** If nothing founded the key, every past question about it has since been forgotten. */
  lemma {:induction false} NoFounderMeansForgotten(events: seq<Event>, localIps: set<IpAddr>, key: FlowKey, j: nat)
    requires j < |events| && Asks(events[j], localIps, key)
    requires forall i :: !Founder(events, localIps, key, i)
    ensures exists k :: j < k < |events| && events[k] == Forgot(key)
    decreases j
  {
    if forall k :: j < k < |events| ==> events[k] != Forgot(key) {
      assert !Founder(events, localIps, key, j);
      var i :| 0 <= i < j && Asks(events[i], localIps, key) && forall k :: i < k < j ==> events[k] != Forgot(key);
      NoFounderMeansForgotten(events, localIps, key, i);
      assert false;
    }
  }

  ghost predicate Founded(events: seq<Event>, localIps: set<IpAddr>, key: FlowKey) {
    exists i: nat :: Founder(events, localIps, key, i)
  }

  /** A new event ends the founding, keeps the founder, or founds a key that had none. */
  lemma FounderStep(events: seq<Event>, e: Event, localIps: set<IpAddr>, key: FlowKey)
    ensures Founded(events + [e], localIps, key) <==>
            e != Forgot(key) && (Founded(events, localIps, key) || Asks(e, localIps, key))
    ensures forall i: nat ::
              Founder(events, localIps, key, i) && e != Forgot(key) ==> Founder(events + [e], localIps, key, i)
    ensures !Founded(events, localIps, key) && Asks(e, localIps, key) ==> Founder(events + [e], localIps, key, |events|)
  {
    var all, n := events + [e], |events|;
    assert all[n] == e;
    forall i: nat | i < n
      ensures Founder(all, localIps, key, i) <==> Founder(events, localIps, key, i) && e != Forgot(key)
    {
      FounderExtends(events, e, localIps, key, i);
    }
    if !Founded(events, localIps, key) && Asks(e, localIps, key) {
      forall j | 0 <= j < n && Asks(all[j], localIps, key) ensures exists k :: j < k < n && all[k] == Forgot(key) {
        NoFounderMeansForgotten(events, localIps, key, j);
        var k :| j < k < n && events[k] == Forgot(key);
        assert all[k] == Forgot(key);
      }
      assert Founder(all, localIps, key, n);
    }
  }

  /** The cache holds a key exactly when something founded it, with the parser's answer to the founder. */
  lemma {:induction false} CacheHoldsFounders(events: seq<Event>, localIps: set<IpAddr>, parser: Parser, key: FlowKey)
    ensures key in CacheAfter(events, localIps, parser) <==> Founded(events, localIps, key)
    ensures forall i: nat :: Founder(events, localIps, key, i) ==>
              key in CacheAfter(events, localIps, parser)
              && CacheAfter(events, localIps, parser)[key] == EntryOf(AnswerOf(events[i], localIps, parser))
  {
    if events != [] {
      var n := |events| - 1;
      var init, e := events[..n], events[n];
      assert events == init + [e];
      CacheHoldsFounders(init, localIps, parser, key);
      FounderStep(init, e, localIps, key);
      forall i: nat | Founder(events, localIps, key, i)
        ensures CacheAfter(events, localIps, parser)[key] == EntryOf(AnswerOf(events[i], localIps, parser))
      {
        if Founded(init, localIps, key) {
          var f: nat :| Founder(init, localIps, key, f);
          FounderIsUnique(events, localIps, key, i, f);
        } else {
          FounderIsUnique(events, localIps, key, i, n);
        }
      }
    }
  }

  /**
   * The reported domain: a packet with a key gets the parser's answer to the connection's founding
   * payload; an outbound payload without a founder founds it; and an outbound packet without a
   * payload gets none, even on a connection whose domain is known.
   */
  lemma ReportIsFoundersAnswer(events: seq<Event>, localIps: set<IpAddr>, parser: Parser, p: Packet)
    requires ParseWithPayload(p, localIps).Some?
    ensures var (flow, payload) := ParseWithPayload(p, localIps).value;
            var reported := Report(CacheAfter(events, localIps, parser), flow, payload, parser);
            var key := FlowKeyFrom(flow);
            && (flow.direction == Outbound && payload.None? ==> reported == None)
            && (key.None? ==> reported == None)
            && (key.Some? && (flow.direction == Inbound || payload.Some?) ==>
                  && (forall i: nat :: Founder(events, localIps, key.value, i) ==>
                        reported == AnswerOf(events[i], localIps, parser))
                  && ((forall i: nat :: !Founder(events, localIps, key.value, i)) ==>
                        reported == AnswerOf(Saw(p), localIps, parser)))
  {
    var (flow, payload) := ParseWithPayload(p, localIps).value;
    var key := FlowKeyFrom(flow);
    if key.Some? {
      CacheHoldsFounders(events, localIps, parser, key.value);
    }
  }

  /**
   * While a connection is not forgotten, its first outbound payload settles the domain of every
   * later packet either way; exactly the outbound packets without a payload miss a known domain.
   */
  lemma FirstAnswerSticks(
    events: seq<Event>, localIps: set<IpAddr>, parser: Parser, p: Packet, key: FlowKey, first: nat)
    requires ParseWithPayload(p, localIps).Some? && FlowKeyFrom(ParseWithPayload(p, localIps).value.0) == Some(key)
    requires forall j :: 0 <= j < |events| ==> events[j] != Forgot(key)
    requires first < |events| && Asks(events[first], localIps, key)
    requires forall j :: 0 <= j < first ==> !Asks(events[j], localIps, key)
    ensures var (flow, payload) := ParseWithPayload(p, localIps).value;
            var answer := AnswerOf(events[first], localIps, parser);
            Report(CacheAfter(events, localIps, parser), flow, payload, parser) == answer
            <==> flow.direction == Inbound || payload.Some? || answer == None
  {
    assert Founder(events, localIps, key, first);
    ReportIsFoundersAnswer(events, localIps, parser, p);
  }

  /** An outbound TCP packet between a local and a remote address. */
  function Sent(payload: Payload): Packet {
    Packet(V4(1), V4(2), TcpSegment(40000, 443, payload), 60, false)
  }

  /** The failing input: a connection whose domain is known, and a further packet of it with an empty payload. */
  lemma EmptyPayloadMissesKnownDomain(payload: Payload, domain: string)
    requires payload != []
    ensures var localIps, parser := {V4(1)}, (_: Payload) => Some(domain);
            var cache := CacheAfter([Saw(Sent(payload))], localIps, parser);
            var (flow, none) := ParseWithPayload(Sent([]), localIps).value;
            && FlowKeyFrom(flow).Some? && FlowKeyFrom(flow).value in cache
            && cache[FlowKeyFrom(flow).value] == Resolved(domain)
            && Report(cache, flow, none, parser) == None
  {
    var localIps, parser := {V4(1)}, (_: Payload) => Some(domain);
    var events := [Saw(Sent(payload))];
    var key := FlowKey(V4(1), 40000, V4(2), 443);
    assert Question(Sent(payload), localIps) == Some((key, payload));
    assert events[..0] == [];
    assert CacheAfter(events, localIps, parser) == map[key := Resolved(domain)];
  }

  /** A packet that another host sends never founds, replaces or forgets an answer. */
  lemma ReceivedPacketsAskNothing(events: seq<Event>, localIps: set<IpAddr>, parser: Parser, p: Packet)
    requires p.source !in localIps
    ensures CacheAfter(events + [Saw(p)], localIps, parser) == CacheAfter(events, localIps, parser)
  {
    assert (events + [Saw(p)])[..|events|] == events;
  }

  // ----- How often the parser is called -----

  /** The parser is called for a question whose key is not cached. */
  ghost function Calls(events: seq<Event>, localIps: set<IpAddr>, parser: Parser, key: FlowKey): nat {
    if events == [] then 0
    else
      var init, e := events[..|events| - 1], events[|events| - 1];
      Calls(init, localIps, parser, key)
      + if Asks(e, localIps, key) && key !in CacheAfter(init, localIps, parser) then 1 else 0
  }

  /** Evictions that removed the key from the cache. */
  ghost function Evictions(events: seq<Event>, localIps: set<IpAddr>, parser: Parser, key: FlowKey): nat {
    if events == [] then 0
    else
      var init, e := events[..|events| - 1], events[|events| - 1];
      Evictions(init, localIps, parser, key)
      + if e == Forgot(key) && key in CacheAfter(init, localIps, parser) then 1 else 0
  }

  /** Each call but the latest has been paid for by an eviction. */
  lemma {:induction false} CallsAreEvictionsPlusHeld(
    events: seq<Event>, localIps: set<IpAddr>, parser: Parser, key: FlowKey)
    ensures Calls(events, localIps, parser, key) ==
            Evictions(events, localIps, parser, key) + if key in CacheAfter(events, localIps, parser) then 1 else 0
  {
    if events != [] {
      CallsAreEvictionsPlusHeld(events[..|events| - 1], localIps, parser, key);
    }
  }
}
