/**
 * The reference for pending attribution, kept observation by observation: every captured endpoint
 * observation is either decided once or waits in a queue of groups, one group per connection.
 * Each access to the shared process table sees its own, arbitrary table, so the table may be
 * replaced between any two accesses.
 */
module Ledgers {
  import opened Net
  import opened ProcTables

  datatype ConnectionKey = ConnectionKey(localSocket: LocalSocket, peerIp: IpAddr, peerPort: U16, direction: Direction)

  /** One endpoint's view of one flow; `flow` is the position of the flow in the ledger. */
  datatype Observation = Observation(
    flow: nat, endpoint: nat,
    direction: Direction, bytes: nat, at: Time, arrived: Instant,
    connection: Option<ConnectionKey>)

  /** Observations of one connection that wait, and are decided, together. */
  type Group = seq<Observation>

  datatype Entry =
    | Traffic(flow: Flow, at: Time, now: Instant)
    | Decision(process: Option<ObservedProcess>, group: Group)

  datatype Ledger = Ledger(entries: seq<Entry>, queue: seq<Group>, lastGeneration: Option<nat>)

  const EMPTY_LEDGER := Ledger([], [], None)

  datatype Limits = Limits(window: nat, capacity: nat)

  /** What one access to the locked table sees. */
  datatype TableRead = Poisoned | Read(table: ProcTable, at: Instant)

  datatype Reads = Reads(generation: TableRead, drain: nat -> TableRead, local: TableRead, peer: TableRead)

  function LookupProcess(read: TableRead, socket: LocalSocket): Option<ObservedProcess> {
    if read.Poisoned? then None
    else
      match read.table.LookupOutcomeAt(socket, read.at)
      case Hit(process, _) => Some(ObservedProcess(process.pid, process.name, process.path))
      case Miss(_) => None
  }

  function GenerationOf(read: TableRead): Option<nat> {
    if read.Poisoned? then None else Some(read.table.generation)
  }

  function ConnectionOf(group: Group): Option<ConnectionKey> {
    if group == [] then None else group[0].connection
  }

  /** When the oldest observation of a group arrived. */
  function Since(group: Group): Instant {
    if group == [] then 0 else group[0].arrived
  }

  function LookupFor(read: TableRead, group: Group): Option<ObservedProcess> {
    var connection := ConnectionOf(group);
    if connection.None? then None else LookupProcess(read, connection.value.localSocket)
  }

  function Connect(socket: Option<LocalSocket>, peerIp: IpAddr, peerPort: Option<U16>, direction: Direction)
    : Option<ConnectionKey>
  {
    if socket.None? || peerPort.None? then None
    else Some(ConnectionKey(socket.value, peerIp, peerPort.value, direction))
  }

  /** The endpoint observations of a flow: one, or two when both of its ends are local sockets. */
  function Endpoints(flow: Flow, at: Time, now: Instant, id: nat): seq<Observation> {
    [Observation(id, 0, flow.direction, flow.bytes, at, now,
                 Connect(flow.localSocket, flow.peer, flow.peerPort, flow.direction))]
    + if flow.peerLocalSocket.None? || flow.localSocket.None? then []
      else
        var local := flow.localSocket.value;
        [Observation(id, 1, Inbound, flow.bytes, at, now,
                     Connect(flow.peerLocalSocket, local.ip, Some(local.port), Inbound))]
  }

  // ----- Operations -----

  function Decide(l: Ledger, process: Option<ObservedProcess>, group: Group): Ledger {
    l.(entries := l.entries + [Decision(process, group)])
  }

  function DecideOldest(l: Ledger): Ledger
    requires l.queue != []
  {
    Decide(l, None, l.queue[0]).(queue := l.queue[1..])
  }

  predicate Overdue(group: Group, window: nat, now: Instant) {
    SaturatingSince(now, Since(group)) >= window
  }

  /** Front-only expiry. */
  function Expire(l: Ledger, window: nat, now: Instant): Ledger
    decreases |l.queue|
  {
    if l.queue == [] || !Overdue(l.queue[0], window, now) then l
    else Expire(DecideOldest(l), window, now)
  }

  /** One second look-up for each waiting group; whatever it answers is final. */
  function Drain(l: Ledger, tables: nat -> TableRead, i: nat): Ledger
    decreases |l.queue|
  {
    if l.queue == [] then l
    else
      var group := l.queue[0];
      Drain(Decide(l, LookupFor(tables(i), group), group).(queue := l.queue[1..]), tables, i + 1)
  }

  function Advance(l: Ledger, lim: Limits, generation: TableRead, drain: nat -> TableRead, now: Instant): Ledger {
    var expired := Expire(l, lim.window, now);
    var seen := GenerationOf(generation);
    if seen.None? || seen == expired.lastGeneration then expired
    else Drain(expired.(lastGeneration := seen), drain, 0)
  }

  /** The first waiting group of a connection, or the end of the queue. */
  function FindGroup(queue: seq<Group>, connection: Option<ConnectionKey>): (i: nat)
    ensures i <= |queue|
    ensures i < |queue| ==> ConnectionOf(queue[i]) == connection
    ensures forall j :: 0 <= j < i ==> ConnectionOf(queue[j]) != connection
  {
    if queue == [] || ConnectionOf(queue[0]) == connection then 0 else 1 + FindGroup(queue[1..], connection)
  }

  function Enqueue(l: Ledger, capacity: nat, o: Observation): Ledger {
    var i := FindGroup(l.queue, o.connection);
    if capacity == 0 then Decide(l, None, [o])
    else if i < |l.queue| then l.(queue := l.queue[i := l.queue[i] + [o]])
    else
      var room := if |l.queue| == capacity then DecideOldest(l) else l;
      room.(queue := room.queue + [[o]])
  }

  function Place(l: Ledger, capacity: nat, o: Observation, read: TableRead): Ledger {
    if o.connection.None? then Decide(l, None, [o])
    else
      var process := LookupProcess(read, o.connection.value.localSocket);
      if process.Some? then Decide(l, process, [o]) else Enqueue(l, capacity, o)
  }

  function RecordFlow(l: Ledger, lim: Limits, flow: Flow, tables: Reads, now: Instant, at: Time): Ledger {
    var advanced := Advance(l, lim, tables.generation, tables.drain, now);
    var ends := Endpoints(flow, at, now, |advanced.entries|);
    var posted := advanced.(entries := advanced.entries + [Traffic(flow, at, now)]);
    var local := Place(posted, lim.capacity, ends[0], tables.local);
    if |ends| == 2 then Place(local, lim.capacity, ends[1], tables.peer) else local
  }

  datatype Call =
    | AdvanceCall(generation: TableRead, drain: nat -> TableRead, now: Instant)
    | FlowCall(flow: Flow, tables: Reads, now: Instant, at: Time)

  function Perform(l: Ledger, lim: Limits, call: Call): Ledger {
    match call
    case AdvanceCall(generation, drain, now) => Advance(l, lim, generation, drain, now)
    case FlowCall(flow, tables, now, at) => RecordFlow(l, lim, flow, tables, now, at)
  }

  function Run(lim: Limits, calls: seq<Call>): Ledger {
    if calls == [] then EMPTY_LEDGER
    else Perform(Run(lim, calls[..|calls| - 1]), lim, calls[|calls| - 1])
  }

  // ----- Weights: any measure of observations -----

  function Weigh(group: Group, w: Observation -> nat): nat {
    if group == [] then 0 else Weigh(group[..|group| - 1], w) + w(group[|group| - 1])
  }

  function Queued(queue: seq<Group>, w: Observation -> nat): nat {
    if queue == [] then 0 else Weigh(queue[0], w) + Queued(queue[1..], w)
  }

  ghost function Seen(entries: seq<Entry>, w: Observation -> nat): nat {
    if entries == [] then 0
    else
      var n := |entries| - 1;
      Seen(entries[..n], w) +
      match entries[n]
      case Traffic(flow, at, now) => Weigh(Endpoints(flow, at, now, n), w)
      case Decision(_, _) => 0
  }

  ghost function Decided(entries: seq<Entry>, w: Observation -> nat): nat {
    if entries == [] then 0
    else
      var n := |entries| - 1;
      Decided(entries[..n], w) +
      match entries[n]
      case Traffic(_, _, _) => 0
      case Decision(_, group) => Weigh(group, w)
  }

  lemma EntryWeights(entries: seq<Entry>, e: Entry, w: Observation -> nat)
    ensures Seen(entries + [e], w) == Seen(entries, w) +
              if e.Traffic? then Weigh(Endpoints(e.flow, e.at, e.now, |entries|), w) else 0
    ensures Decided(entries + [e], w) == Decided(entries, w) + if e.Decision? then Weigh(e.group, w) else 0
  {
    assert (entries + [e])[..|entries|] == entries;
  }

  lemma {:induction false} QueuedAppend(queue: seq<Group>, group: Group, w: Observation -> nat)
    ensures Queued(queue + [group], w) == Queued(queue, w) + Weigh(group, w)
  {
    if queue == [] {
      assert queue + [group] == [group];
    } else {
      assert (queue + [group])[1..] == queue[1..] + [group];
      QueuedAppend(queue[1..], group, w);
    }
  }

  lemma {:induction false} QueuedMerge(queue: seq<Group>, i: nat, o: Observation, w: Observation -> nat)
    requires i < |queue|
    ensures Queued(queue[i := queue[i] + [o]], w) == Queued(queue, w) + w(o)
  {
    var merged := queue[i := queue[i] + [o]];
    if i == 0 {
      assert (queue[0] + [o])[..|queue[0]|] == queue[0];
      assert merged[1..] == queue[1..];
    } else {
      assert merged[1..] == queue[1..][i - 1 := queue[1..][i - 1] + [o]];
      QueuedMerge(queue[1..], i - 1, o, w);
    }
  }

  // ----- Nothing is lost, nothing is counted twice -----

  /** Under every weight, what was seen is decided or still waits. */
  ghost predicate Accounts(l: Ledger, inFlight: Group, w: Observation -> nat) {
    Seen(l.entries, w) == Decided(l.entries, w) + Queued(l.queue, w) + Weigh(inFlight, w)
  }

  lemma WeighOne(o: Observation, w: Observation -> nat)
    ensures Weigh([o], w) == w(o)
  {
    assert [o][..0] == [];
  }

  lemma {:induction false} ExpireAccounts(l: Ledger, window: nat, now: Instant, w: Observation -> nat)
    requires Accounts(l, [], w)
    ensures Accounts(Expire(l, window, now), [], w)
    decreases |l.queue|
  {
    if l.queue != [] && Overdue(l.queue[0], window, now) {
      EntryWeights(l.entries, Decision(None, l.queue[0]), w);
      ExpireAccounts(DecideOldest(l), window, now, w);
    }
  }

  lemma {:induction false} DrainAccounts(l: Ledger, tables: nat -> TableRead, i: nat, w: Observation -> nat)
    requires Accounts(l, [], w)
    ensures Accounts(Drain(l, tables, i), [], w)
    decreases |l.queue|
  {
    if l.queue != [] {
      var process := LookupFor(tables(i), l.queue[0]);
      EntryWeights(l.entries, Decision(process, l.queue[0]), w);
      DrainAccounts(Decide(l, process, l.queue[0]).(queue := l.queue[1..]), tables, i + 1, w);
    }
  }

  lemma AdvanceAccounts(
    l: Ledger, lim: Limits, generation: TableRead, drain: nat -> TableRead, now: Instant, w: Observation -> nat)
    requires Accounts(l, [], w)
    ensures Accounts(Advance(l, lim, generation, drain, now), [], w)
  {
    ExpireAccounts(l, lim.window, now, w);
    var expired := Expire(l, lim.window, now);
    DrainAccounts(expired.(lastGeneration := GenerationOf(generation)), drain, 0, w);
  }

  lemma EnqueueWeights(l: Ledger, capacity: nat, o: Observation, w: Observation -> nat)
    ensures var l' := Enqueue(l, capacity, o);
            && Seen(l'.entries, w) == Seen(l.entries, w)
            && Decided(l'.entries, w) + Queued(l'.queue, w) == Decided(l.entries, w) + Queued(l.queue, w) + w(o)
  {
    var i := FindGroup(l.queue, o.connection);
    WeighOne(o, w);
    if capacity == 0 {
      EntryWeights(l.entries, Decision(None, [o]), w);
    } else if i < |l.queue| {
      QueuedMerge(l.queue, i, o, w);
    } else if |l.queue| == capacity {
      EntryWeights(l.entries, Decision(None, l.queue[0]), w);
      QueuedAppend(l.queue[1..], [o], w);
    } else {
      QueuedAppend(l.queue, [o], w);
    }
  }

  lemma PlaceAccounts(l: Ledger, capacity: nat, o: Observation, read: TableRead, rest: Group, w: Observation -> nat)
    requires Accounts(l, rest + [o], w)
    ensures Accounts(Place(l, capacity, o, read), rest, w)
  {
    assert (rest + [o])[..|rest|] == rest;
    var process := if o.connection.None? then None else LookupProcess(read, o.connection.value.localSocket);
    if o.connection.Some? && process.None? {
      EnqueueWeights(l, capacity, o, w);
    } else {
      WeighOne(o, w);
      EntryWeights(l.entries, Decision(process, [o]), w);
    }
  }

  lemma WeighTwo(a: Observation, b: Observation, w: Observation -> nat)
    ensures Weigh([a, b], w) == w(a) + w(b) == Weigh([b, a], w)
  {
    assert [a, b][..1] == [a] && [b, a][..1] == [b];
    WeighOne(a, w);
    WeighOne(b, w);
  }

  lemma PerformAccounts(l: Ledger, lim: Limits, call: Call, w: Observation -> nat)
    requires Accounts(l, [], w)
    ensures Accounts(Perform(l, lim, call), [], w)
  {
    match call
    case AdvanceCall(generation, drain, now) => AdvanceAccounts(l, lim, generation, drain, now, w);
    case FlowCall(flow, tables, now, at) =>
      AdvanceAccounts(l, lim, tables.generation, tables.drain, now, w);
      var advanced := Advance(l, lim, tables.generation, tables.drain, now);
      var ends := Endpoints(flow, at, now, |advanced.entries|);
      EntryWeights(advanced.entries, Traffic(flow, at, now), w);
      var posted := advanced.(entries := advanced.entries + [Traffic(flow, at, now)]);
      if |ends| == 2 {
        assert ends == [ends[0], ends[1]];
        WeighTwo(ends[0], ends[1], w);
        assert [ends[1]] + [ends[0]] == [ends[1], ends[0]];
        PlaceAccounts(posted, lim.capacity, ends[0], tables.local, [ends[1]], w);
        assert [] + [ends[1]] == [ends[1]];
        PlaceAccounts(Place(posted, lim.capacity, ends[0], tables.local), lim.capacity, ends[1], tables.peer, [], w);
      } else {
        assert [] + [ends[0]] == ends;
        PlaceAccounts(posted, lim.capacity, ends[0], tables.local, [], w);
      }
  }

  /** In every run, whatever the tables and clocks say, every weight is conserved. */
  lemma {:induction false} RunConserves(lim: Limits, calls: seq<Call>, w: Observation -> nat)
    ensures var l := Run(lim, calls);
            Seen(l.entries, w) == Decided(l.entries, w) + Queued(l.queue, w)
  {
    if calls != [] {
      RunConserves(lim, calls[..|calls| - 1], w);
      PerformAccounts(Run(lim, calls[..|calls| - 1]), lim, calls[|calls| - 1], w);
    }
  }
}
