/** What the ledger posts to the statistics, and the balance of the statistics' own counters. */
module Accounting {
  import opened Net
  import opened Postings
  import opened Statistics
  import L = Ledgers
  import opened LedgerLaws

  function AnyBytes(o: L.Observation): nat {
    o.bytes
  }

  function DirectionOf(group: L.Group): Direction {
    if group == [] then Inbound else group[0].direction
  }

  function LastAt(group: L.Group): Time {
    if group == [] then 0 else group[|group| - 1].at
  }

  function DecisionPosting(process: Option<ObservedProcess>, group: L.Group): Posting {
    ProcessPosting(process, DirectionOf(group), L.Weigh(group, AnyBytes), LastAt(group))
  }

  function FlowPostings(flow: Flow, at: Time): seq<Posting> {
    InterfacePostings(flow, at) + DomainPostings(flow.domain, flow.direction, flow.bytes, at)
  }

  /** The postings of a ledger: each flow's interface and domain lines, and one line per decision. */
  function PostAll(entries: seq<L.Entry>): seq<Posting> {
    if entries == [] then []
    else
      var n := |entries| - 1;
      PostAll(entries[..n]) + EntryPostings(entries[n])
  }

  function EntryPostings(e: L.Entry): seq<Posting> {
    match e
    case Traffic(flow, at, _) => FlowPostings(flow, at)
    case Decision(process, group) => [DecisionPosting(process, group)]
  }

  lemma PostEntry(entries: seq<L.Entry>, e: L.Entry)
    ensures PostAll(entries + [e]) == PostAll(entries) + EntryPostings(e)
  {
    assert (entries + [e])[..|entries|] == entries;
  }

  lemma LinesOfFlow(log: seq<Posting>, entries: seq<L.Entry>, flow: Flow, now: Instant, at: Time)
    requires log == PostAll(entries)
    ensures log + InterfacePostings(flow, at) + DomainPostings(flow.domain, flow.direction, flow.bytes, at) ==
            PostAll(entries + [L.Traffic(flow, at, now)])
  {
    PostEntry(entries, L.Traffic(flow, at, now));
  }

  lemma OnePosting(p: Posting, scope: Scope)
    ensures Bytes([p], scope) == if scope.Covers(p) then p.bytes else 0
  {
    assert [p][..0] == [];
  }

  lemma FlowPostingBytes(flow: Flow, at: Time, d: Direction)
    ensures var posted := FlowPostings(flow, at);
            && Bytes(posted, Remotes(d)) == InterfaceBytes(flow, d)
            && Bytes(posted, Attribution(d)) == 0
            && Bytes(posted, Domains(d)) == (if flow.domain.Some? && flow.direction == d then flow.bytes else 0)
  {
    var lines, names := InterfacePostings(flow, at), DomainPostings(flow.domain, flow.direction, flow.bytes, at);
    forall scope ensures Bytes(lines + names, scope) == Bytes(lines, scope) + Bytes(names, scope) {
      BytesAppend(lines, names, scope);
    }
    forall scope ensures Bytes(lines, scope) ==
      (if scope.Covers(lines[0]) then lines[0].bytes else 0)
      + (if |lines| == 2 && scope.Covers(lines[1]) then lines[1].bytes else 0)
    {
      OnePosting(lines[0], scope);
      if |lines| == 2 {
        assert lines == [lines[0]] + [lines[1]];
        BytesAppend([lines[0]], [lines[1]], scope);
        OnePosting(lines[1], scope);
      } else {
        assert lines == [lines[0]];
      }
    }
    if names != [] {
      forall scope ensures Bytes(names, scope) == if scope.Covers(names[0]) then names[0].bytes else 0 {
        assert names == [names[0]];
        OnePosting(names[0], scope);
      }
    }
  }

  lemma {:induction false} UniformWeight(group: L.Group, direction: Direction, d: Direction)
    requires forall i :: 0 <= i < |group| ==> group[i].direction == direction
    ensures L.Weigh(group, BytesIn(d)) == if direction == d then L.Weigh(group, AnyBytes) else 0
  {
    if group != [] {
      UniformWeight(group[..|group| - 1], direction, d);
    }
  }

  /** The interface total posted is the bytes moved, and the attribution posted is the bytes decided. */
  lemma {:induction false} PostedTotals(entries: seq<L.Entry>, d: Direction)
    requires DecisionsUniform(entries)
    ensures Bytes(PostAll(entries), Remotes(d)) == Moved(entries, d)
    ensures Bytes(PostAll(entries), Attribution(d)) == L.Decided(entries, BytesIn(d))
    ensures Bytes(PostAll(entries), Domains(d)) <= Moved(entries, d)
  {
    if entries != [] {
      var n := |entries| - 1;
      var init, e := entries[..n], entries[n];
      assert DecisionsUniform(init);
      PostedTotals(init, d);
      BytesAppend(PostAll(init), EntryPostings(e), Remotes(d));
      BytesAppend(PostAll(init), EntryPostings(e), Attribution(d));
      BytesAppend(PostAll(init), EntryPostings(e), Domains(d));
      EntryTotals(e, d);
    }
  }

  lemma EntryTotals(e: L.Entry, d: Direction)
    requires e.Decision? ==> Uniform(e.group)
    ensures var posted := EntryPostings(e);
            && Bytes(posted, Remotes(d)) == (if e.Traffic? then InterfaceBytes(e.flow, d) else 0)
            && Bytes(posted, Attribution(d)) == (if e.Traffic? then 0 else L.Weigh(e.group, BytesIn(d)))
            && Bytes(posted, Domains(d)) <= (if e.Traffic? then InterfaceBytes(e.flow, d) else 0)
  {
    match e
    case Traffic(flow, at, _) => FlowPostingBytes(flow, at, d);
    case Decision(process, group) =>
      var p := DecisionPosting(process, group);
      UniformWeight(group, DirectionOf(group), d);
      OnePosting(p, Remotes(d));
      OnePosting(p, Attribution(d));
      OnePosting(p, Domains(d));
  }

  // ----- The counters themselves -----

  /** The counter that `v` keeps for a row in one direction; a row it does not hold counts nothing. */
  function Amount(v: Counters, row: Row, d: Direction): nat {
    match row
    case Remote(ip) => At(if d == Inbound then v.inIps.bytes else v.outIps.bytes, ip, 0)
    case Process(key) => At(v.processes.traffic, key, Traffic(0, 0)).Of(d)
    case Unattributed => v.unattributed.Of(d)
    case Domain(host) => At(v.domains.traffic, host, Traffic(0, 0)).Of(d)
  }

  function SumAmounts(v: Counters, rows: seq<Row>, d: Direction): nat {
    if rows == [] then 0 else Amount(v, rows[0], d) + SumAmounts(v, rows[1..], d)
  }

  predicate Holds(v: Counters, row: Row, d: Direction) {
    match row
    case Remote(ip) => ip in if d == Inbound then v.inIps.bytes else v.outIps.bytes
    case Process(key) => key in v.processes.traffic
    case Unattributed => v.unattributedLastSeen.Some?
    case Domain(host) => host in v.domains.traffic
  }

  predicate SameKind(a: Row, b: Row) {
    (a.Remote? <==> b.Remote?) && (a.Process? <==> b.Process?) && (a.Domain? <==> b.Domain?)
  }

  /** `rows` lists every row of one kind that `v` holds, without repeats, in any order. */
  ghost predicate ListsRows(v: Counters, rows: seq<Row>, kind: Row, d: Direction) {
    && (forall i, j :: 0 <= i < j < |rows| ==> rows[i] != rows[j])
    && (forall row :: row in rows <==> SameKind(row, kind) && Holds(v, row, d))
  }

  lemma AmountIsPosted(v: Counters, log: seq<Posting>, row: Row, d: Direction)
    requires Represents(v, log)
    ensures Amount(v, row, d) == Bytes(log, Cell(row, d))
    ensures (exists p :: p in log && Cell(row, d).Covers(p)) ==> Holds(v, row, d)
  {
    match row {
      case Remote(ip) => assert IpMatches(if d == Inbound then v.inIps else v.outIps, log, d, ip);
      case Process(key) => assert ProcessMatches(v.processes, log, key);
      case Unattributed =>
      case Domain(host) => assert DomainMatches(v.domains, log, host);
    }
    SeenExactlyWhenCovered(log, Cell(row, d));
    SeenExactlyWhenCovered(log, Whole(row));
  }

  lemma {:induction false} SumIsPosted(v: Counters, log: seq<Posting>, rows: seq<Row>, d: Direction)
    requires Represents(v, log)
    ensures SumAmounts(v, rows, d) == SumCells(log, rows, d)
  {
    if rows != [] {
      AmountIsPosted(v, log, rows[0], d);
      SumIsPosted(v, log, rows[1..], d);
    }
  }

  ghost function ScopeOf(kind: Row, d: Direction): Scope {
    match kind
    case Remote(_) => Remotes(d)
    case Process(_) => Processes(d)
    case Unattributed => Cell(Unattributed, d)
    case Domain(_) => Domains(d)
  }

  /** The rows of each table add up to what was posted to the table. */
  lemma TableAddsUp(v: Counters, log: seq<Posting>, rows: seq<Row>, kind: Row, d: Direction)
    requires Represents(v, log) && ListsRows(v, rows, kind, d)
    ensures SumAmounts(v, rows, d) == Bytes(log, ScopeOf(kind, d))
  {
    SumIsPosted(v, log, rows, d);
    forall p | p in log && ScopeOf(kind, d).Covers(p) ensures p.row in rows && p.direction == d {
      assert Cell(p.row, d).Covers(p);
      AmountIsPosted(v, log, p.row, d);
    }
    RowsAddUp(log, rows, ScopeOf(kind, d), d);
  }

  /** The counters that a run leaves in the statistics. */
  ghost predicate CountersOf(v: Counters, lim: L.Limits, calls: seq<L.Call>) {
    Represents(v, PostAll(L.Run(lim, calls).entries))
  }

  function InterfaceTotal(v: Counters, d: Direction): nat {
    if d == Inbound then v.inBytes else v.outBytes
  }

  /**
   * Conservation: after any calls on well-formed flows, whatever the tables and clocks did, each
   * direction's interface total is the sum over its addresses, and also the sum over processes plus
   * the unattributed line plus the waiting bytes. Domains hold at most the interface total.
   */
  lemma CountersBalance(
    v: Counters, lim: L.Limits, calls: seq<L.Call>, d: Direction,
    addresses: seq<Row>, processes: seq<Row>, domains: seq<Row>)
    requires CountersOf(v, lim, calls)
    requires AllWellFormed(L.Run(lim, calls).entries)
    requires ListsRows(v, addresses, Remote(V4(0)), d)
    requires ListsRows(v, processes, Process(ProcessKey(0, None)), d)
    requires ListsRows(v, domains, Domain(""), d)
    ensures InterfaceTotal(v, d) == SumAmounts(v, addresses, d)
    ensures InterfaceTotal(v, d) ==
            SumAmounts(v, processes, d) + v.unattributed.Of(d) + L.Queued(L.Run(lim, calls).queue, BytesIn(d))
    ensures SumAmounts(v, domains, d) <= InterfaceTotal(v, d)
  {
    RunTotals(lim, calls, d);
    TablesAddUp(v, PostAll(L.Run(lim, calls).entries), d, addresses, processes, domains);
  }

  lemma TablesAddUp(
    v: Counters, log: seq<Posting>, d: Direction, addresses: seq<Row>, processes: seq<Row>, domains: seq<Row>)
    requires Represents(v, log)
    requires ListsRows(v, addresses, Remote(V4(0)), d)
    requires ListsRows(v, processes, Process(ProcessKey(0, None)), d)
    requires ListsRows(v, domains, Domain(""), d)
    ensures InterfaceTotal(v, d) == Bytes(log, Remotes(d)) == SumAmounts(v, addresses, d)
    ensures SumAmounts(v, processes, d) + v.unattributed.Of(d) == Bytes(log, Attribution(d))
    ensures SumAmounts(v, domains, d) == Bytes(log, Domains(d))
  {
    AddressesAddUp(v, log, addresses, d);
    ProcessesAddUp(v, log, processes, d);
    DomainsAddUp(v, log, domains, d);
  }

  lemma AddressesAddUp(v: Counters, log: seq<Posting>, addresses: seq<Row>, d: Direction)
    requires Represents(v, log) && ListsRows(v, addresses, Remote(V4(0)), d)
    ensures InterfaceTotal(v, d) == Bytes(log, Remotes(d)) == SumAmounts(v, addresses, d)
  {
    TableAddsUp(v, log, addresses, Remote(V4(0)), d);
  }

  lemma DomainsAddUp(v: Counters, log: seq<Posting>, domains: seq<Row>, d: Direction)
    requires Represents(v, log) && ListsRows(v, domains, Domain(""), d)
    ensures SumAmounts(v, domains, d) == Bytes(log, Domains(d))
  {
    TableAddsUp(v, log, domains, Domain(""), d);
  }

  lemma ProcessesAddUp(v: Counters, log: seq<Posting>, processes: seq<Row>, d: Direction)
    requires Represents(v, log) && ListsRows(v, processes, Process(ProcessKey(0, None)), d)
    ensures SumAmounts(v, processes, d) + v.unattributed.Of(d) == Bytes(log, Attribution(d))
  {
    TableAddsUp(v, log, processes, Process(ProcessKey(0, None)), d);
    AttributionSplits(log, d);
    AmountIsPosted(v, log, Unattributed, d);
  }

  lemma RunTotals(lim: L.Limits, calls: seq<L.Call>, d: Direction)
    requires AllWellFormed(L.Run(lim, calls).entries)
    ensures var l := L.Run(lim, calls);
            var log := PostAll(l.entries);
            && Bytes(log, Remotes(d)) == Bytes(log, Attribution(d)) + L.Queued(l.queue, BytesIn(d))
            && Bytes(log, Domains(d)) <= Bytes(log, Remotes(d))
  {
    RunShape(lim, calls);
    PostedTotals(L.Run(lim, calls).entries, d);
    RunBalancesExactlyWhenWellFormed(lim, calls);
  }

  /** No counter, and no direction of the waiting bytes, exceeds its direction's interface total. */
  lemma AmountsWithinTotal(v: Counters, lim: L.Limits, calls: seq<L.Call>, row: Row, d: Direction)
    requires CountersOf(v, lim, calls)
    requires AllWellFormed(L.Run(lim, calls).entries)
    ensures Amount(v, row, d) <= InterfaceTotal(v, d)
    ensures L.Queued(L.Run(lim, calls).queue, BytesIn(d)) <= InterfaceTotal(v, d)
  {
    var l := L.Run(lim, calls);
    RunTotals(lim, calls, d);
    AmountIsPosted(v, PostAll(l.entries), row, d);
    CellWithinTable(PostAll(l.entries), row, d);
  }

  // ----- Counters never fall -----

  lemma {:induction false} PostedGrows(entries: seq<L.Entry>, more: seq<L.Entry>, scope: Scope)
    requires Extends(more, entries)
    ensures Bytes(PostAll(entries), scope) <= Bytes(PostAll(more), scope)
    decreases |more|
  {
    if |entries| == |more| {
      assert more == entries;
    } else {
      var init, e := more[..|more| - 1], more[|more| - 1];
      assert init[..|entries|] == entries;
      PostedGrows(entries, init, scope);
      BytesAppend(PostAll(init), EntryPostings(e), scope);
    }
  }

  /** Whatever calls follow, no counter of a process, address or domain, nor the unattributed one, ever falls. */
  lemma CountersNeverFall(
    v: Counters, later: Counters, lim: L.Limits, calls: seq<L.Call>, more: seq<L.Call>, row: Row, d: Direction)
    requires CountersOf(v, lim, calls) && CountersOf(later, lim, calls + more)
    ensures Amount(v, row, d) <= Amount(later, row, d)
  {
    RunExtends(lim, calls, more);
    PostedGrows(L.Run(lim, calls).entries, L.Run(lim, calls + more).entries, Cell(row, d));
    AmountIsPosted(v, PostAll(L.Run(lim, calls).entries), row, d);
    AmountIsPosted(later, PostAll(L.Run(lim, calls + more).entries), row, d);
  }

  lemma CellWithinTable(log: seq<Posting>, row: Row, d: Direction)
    ensures row.Remote? ==> Bytes(log, Cell(row, d)) <= Bytes(log, Remotes(d))
    ensures row.Domain? ==> Bytes(log, Cell(row, d)) <= Bytes(log, Domains(d))
    ensures row.Process? || row.Unattributed? ==> Bytes(log, Cell(row, d)) <= Bytes(log, Attribution(d))
  {
    match row
    case Remote(_) => NarrowerHoldsLess(log, Cell(row, d), Remotes(d));
    case Domain(_) => NarrowerHoldsLess(log, Cell(row, d), Domains(d));
    case _ => NarrowerHoldsLess(log, Cell(row, d), Attribution(d));
  }

  /**
   * While the two interface totals together fit 64 bits, so does every counter, every process or
   * domain total, and the waiting sum: no addition anywhere has wrapped.
   */
  lemma NoCounterOverflows(v: Counters, lim: L.Limits, calls: seq<L.Call>)
    requires CountersOf(v, lim, calls)
    requires AllWellFormed(L.Run(lim, calls).entries)
    requires v.inBytes + v.outBytes < TWO_TO_64
    ensures forall row :: Amount(v, row, Inbound) + Amount(v, row, Outbound) < TWO_TO_64
    ensures NoOverflow(v.processes.traffic) && NoOverflow(v.domains.traffic)
    ensures L.Queued(L.Run(lim, calls).queue, BytesIn(Inbound))
            + L.Queued(L.Run(lim, calls).queue, BytesIn(Outbound)) < TWO_TO_64
  {
    forall row ensures Amount(v, row, Inbound) + Amount(v, row, Outbound) < TWO_TO_64 {
      AmountsWithinTotal(v, lim, calls, row, Inbound);
      AmountsWithinTotal(v, lim, calls, row, Outbound);
    }
    forall key | key in v.processes.traffic
      ensures v.processes.traffic[key].recv + v.processes.traffic[key].sent < TWO_TO_64
    {
      assert Amount(v, Process(key), Inbound) + Amount(v, Process(key), Outbound) < TWO_TO_64;
    }
    forall host | host in v.domains.traffic
      ensures v.domains.traffic[host].recv + v.domains.traffic[host].sent < TWO_TO_64
    {
      assert Amount(v, Domain(host), Inbound) + Amount(v, Domain(host), Outbound) < TWO_TO_64;
    }
    AmountsWithinTotal(v, lim, calls, Unattributed, Inbound);
    AmountsWithinTotal(v, lim, calls, Unattributed, Outbound);
  }
}

/** The attributor as it runs: byte counts in a queue updated in place. */
module Attribution {
  import opened Net
  import opened Ledgers
  import opened LedgerLaws
  import opened Accounting
  import S = Statistics

  datatype PendingAttribution = PendingAttribution(
    connection: ConnectionKey,
    socket: LocalSocket,
    direction: Direction,
    bytes: nat,
    observedAt: Time,
    pendingSince: Instant)

  datatype EndpointObservation = EndpointObservation(
    socket: Option<LocalSocket>,
    direction: Direction,
    peerIp: IpAddr,
    peerPort: Option<U16>,
    bytes: nat,
    observedAt: Time)

  /** A pending record keeps the sum, the first arrival and the last time of its observations. */
  ghost predicate Summarises(p: PendingAttribution, group: Group) {
    && Routed(group)
    && group[0].connection == Some(p.connection)
    && p.socket == p.connection.localSocket
    && p.direction == group[0].direction
    && p.bytes == Weigh(group, AnyBytes)
    && p.observedAt == LastAt(group)
    && p.pendingSince == Since(group)
  }

  ghost predicate QueueSummarises(pending: seq<PendingAttribution>, queue: seq<Group>) {
    && |pending| == |queue|
    && forall i :: 0 <= i < |pending| ==> Summarises(pending[i], queue[i])
  }

  function SumPending(pending: seq<PendingAttribution>): nat {
    if pending == [] then 0 else pending[0].bytes + SumPending(pending[1..])
  }

  lemma {:induction false} SumPendingIsQueued(pending: seq<PendingAttribution>, queue: seq<Group>)
    requires QueueSummarises(pending, queue)
    ensures SumPending(pending) == Queued(queue, AnyBytes)
    ensures SumPending(pending) == Queued(queue, BytesIn(Inbound)) + Queued(queue, BytesIn(Outbound))
  {
    if pending != [] {
      assert Summarises(pending[0], queue[0]);
      UniformWeight(queue[0], queue[0][0].direction, Inbound);
      UniformWeight(queue[0], queue[0][0].direction, Outbound);
      forall i | 0 <= i < |pending[1..]| ensures Summarises(pending[1..][i], queue[1..][i]) {
        assert Summarises(pending[i + 1], queue[i + 1]);
      }
      SumPendingIsQueued(pending[1..], queue[1..]);
    }
  }

  lemma MergedSummary(p: PendingAttribution, group: Group, o: Observation)
    requires Summarises(p, group) && Routed([o]) && o.connection == Some(p.connection)
    ensures Summarises(p.(bytes := p.bytes + o.bytes, observedAt := o.at), group + [o])
  {
    var merged := group + [o];
    assert merged[..|group|] == group && merged[0] == group[0];
    assert o.connection.value.direction == o.direction;
    assert Uniform(merged);
  }

  lemma FindGroupIs(queue: seq<Group>, connection: Option<ConnectionKey>, i: nat)
    requires i <= |queue|
    requires forall j :: 0 <= j < i ==> ConnectionOf(queue[j]) != connection
    requires i < |queue| ==> ConnectionOf(queue[i]) == connection
    ensures FindGroup(queue, connection) == i
  {
  }

  lemma SummariesAppend(pending: seq<PendingAttribution>, queue: seq<Group>, p: PendingAttribution, group: Group)
    requires QueueSummarises(pending, queue) && Summarises(p, group)
    ensures QueueSummarises(pending + [p], queue + [group])
  {
  }

  lemma TrafficKeepsShape(l: Ledger, capacity: nat, flow: Flow, now: Instant, at: Time)
    requires Shaped(l, capacity)
    ensures Shaped(l.(entries := l.entries + [Traffic(flow, at, now)]), capacity)
  {
  }

  class PendingAttributor {
    var pending: seq<PendingAttribution>
    const window: nat
    const capacity: nat
    var lastGeneration: Option<nat>
    ghost var ledger: Ledger

    ghost function Lim(): Limits {
      Limits(window, capacity)
    }

    ghost predicate Valid()
      reads this
    {
      && QueueSummarises(pending, ledger.queue)
      && lastGeneration == ledger.lastGeneration
      && Shaped(ledger, capacity)
    }

    /** The statistics hold exactly what the ledger has posted. */
    ghost predicate Books(stats: S.Stats)
      reads this, stats
    {
      Valid() && stats.Valid() && stats.log == PostAll(ledger.entries)
    }

    constructor (window: nat, capacity: nat)
      ensures Valid() && ledger == EMPTY_LEDGER
      ensures this.window == window && this.capacity == capacity
    {
      this.window, this.capacity := window, capacity;
      pending, lastGeneration := [], None;
      ledger := EMPTY_LEDGER;
    }

    method RecordFlow(stats: S.Stats, flow: Flow, tables: Reads, now: Instant, observedAt: Time)
      requires Books(stats)
      modifies this, stats
      ensures Books(stats)
      ensures ledger == Ledgers.RecordFlow(old(ledger), Lim(), flow, tables, now, observedAt)
    {
      Advance(stats, tables.generation, tables.drain, now);
      ghost var ends := Endpoints(flow, observedAt, now, |ledger.entries|);
      PostFlow(stats, flow, now, observedAt);
      RecordEndpoint(
        stats,
        EndpointObservation(flow.localSocket, flow.direction, flow.peer, flow.peerPort, flow.bytes, observedAt),
        tables.local, now, ends[0]);
      if flow.peerLocalSocket.Some? && flow.localSocket.Some? {
        var local := flow.localSocket.value;
        RecordEndpoint(
          stats,
          EndpointObservation(flow.peerLocalSocket, Inbound, local.ip, Some(local.port), flow.bytes, observedAt),
          tables.peer, now, ends[1]);
      }
    }

    /** Counts the flow on the interface and for its domain. */
    method PostFlow(stats: S.Stats, flow: Flow, now: Instant, observedAt: Time)
      requires Books(stats)
      modifies this`ledger, stats
      ensures Books(stats)
      ensures ledger == old(ledger).(entries := old(ledger).entries + [Traffic(flow, observedAt, now)])
    {
      ghost var log := stats.log;
      stats.RecordInterfaceFlow(flow, observedAt);
      stats.RecordOutboundDomain(flow.domain, flow.direction, flow.bytes, observedAt);
      LinesOfFlow(log, ledger.entries, flow, now, observedAt);
      TrafficKeepsShape(ledger, capacity, flow, now, observedAt);
      ledger := ledger.(entries := ledger.entries + [Traffic(flow, observedAt, now)]);
    }

    method Advance(stats: S.Stats, generation: TableRead, drain: nat -> TableRead, now: Instant)
      requires Books(stats)
      modifies this, stats
      ensures Books(stats)
      ensures ledger == Ledgers.Advance(old(ledger), Lim(), generation, drain, now)
    {
      FinalizeExpired(stats, now);
      var seen := GenerationOf(generation);
      if seen.None? || seen == lastGeneration {
        return;
      }
      lastGeneration := seen;
      ledger := ledger.(lastGeneration := seen);
      ghost var start := ledger;
      var i := 0;
      while pending != []
        invariant Books(stats)
        invariant Drain(ledger, drain, i) == Drain(start, drain, 0)
        decreases |pending|
      {
        var oldest := pending[0];
        assert Summarises(oldest, ledger.queue[0]);
        var process := LookupProcess(drain(i), oldest.socket);
        Commit(stats, process, oldest);
        i := i + 1;
      }
    }

    /** Number and bytes of the waiting records. */
    method Snapshot() returns (records: nat, bytes: nat)
      requires Valid()
      ensures records == |ledger.queue|
      ensures bytes == Queued(ledger.queue, BytesIn(Inbound)) + Queued(ledger.queue, BytesIn(Outbound))
    {
      SumPendingIsQueued(pending, ledger.queue);
      records, bytes := |pending|, SumPending(pending);
    }

    method RecordEndpoint(
      stats: S.Stats, observation: EndpointObservation, read: TableRead, now: Instant, ghost o: Observation)
      requires Books(stats)
      requires o.connection ==
               Connect(observation.socket, observation.peerIp, observation.peerPort, observation.direction)
      requires o.direction == observation.direction && o.bytes == observation.bytes
      requires o.at == observation.observedAt && o.arrived == now
      modifies this, stats
      ensures Books(stats)
      ensures ledger == Place(old(ledger), capacity, o, read)
    {
      if observation.socket.None? || observation.peerPort.None? {
        Post(stats, None, observation.direction, observation.bytes, observation.observedAt, [o]);
        return;
      }
      var socket, peerPort := observation.socket.value, observation.peerPort.value;
      var process := LookupProcess(read, socket);
      if process.Some? {
        Post(stats, process, observation.direction, observation.bytes, observation.observedAt, [o]);
        return;
      }
      PushPending(
        stats,
        PendingAttribution(
          ConnectionKey(socket, observation.peerIp, peerPort, observation.direction),
          socket, observation.direction, observation.bytes, observation.observedAt, now),
        o);
    }

    method FinalizeExpired(stats: S.Stats, now: Instant)
      requires Books(stats)
      modifies this, stats
      ensures Books(stats)
      ensures ledger == Expire(old(ledger), window, now)
    {
      while pending != [] && SaturatingSince(now, pending[0].pendingSince) >= window
        invariant Books(stats)
        invariant Expire(ledger, window, now) == Expire(old(ledger), window, now)
        decreases |pending|
      {
        assert Summarises(pending[0], ledger.queue[0]);
        FinalizeOldest(stats);
      }
      if pending != [] {
        assert Summarises(pending[0], ledger.queue[0]);
      }
    }

    method PushPending(stats: S.Stats, record: PendingAttribution, ghost o: Observation)
      requires Books(stats)
      requires Summarises(record, [o])
      modifies this, stats
      ensures Books(stats)
      ensures ledger == Enqueue(old(ledger), capacity, o)
    {
      EnqueueShape(ledger, capacity, o);
      if capacity == 0 {
        Post(stats, None, record.direction, record.bytes, record.observedAt, [o]);
        return;
      }
      var i := FindWaiting(record.connection);
      if i < |pending| {
        Merge(i, record, o);
        return;
      }
      if |pending| == capacity {
        FinalizeOldest(stats);
      }
      SummariesAppend(pending, ledger.queue, record, [o]);
      pending := pending + [record];
      ledger := ledger.(queue := ledger.queue + [[o]]);
    }

    /** The place of the waiting record of a connection, or the end of the queue. */
    method FindWaiting(connection: ConnectionKey) returns (i: nat)
      requires Valid()
      ensures i == FindGroup(ledger.queue, Some(connection))
      ensures i < |pending| ==> pending[i].connection == connection
    {
      i := 0;
      while i < |pending| && pending[i].connection != connection
        invariant i <= |pending|
        invariant forall j :: 0 <= j < i ==> ConnectionOf(ledger.queue[j]) != Some(connection)
      {
        assert Summarises(pending[i], ledger.queue[i]);
        i := i + 1;
      }
      if i < |pending| {
        assert Summarises(pending[i], ledger.queue[i]);
      }
      FindGroupIs(ledger.queue, Some(connection), i);
    }

    /** Adds a record to the waiting one of the same connection, which keeps its place and age. */
    method Merge(i: nat, record: PendingAttribution, ghost o: Observation)
      requires Valid() && i < |pending| && pending[i].connection == record.connection
      requires Summarises(record, [o])
      requires i == FindGroup(ledger.queue, o.connection)
      requires Shaped(Enqueue(ledger, capacity, o), capacity) && capacity > 0
      modifies this`pending, this`ledger
      ensures Valid()
      ensures ledger == Enqueue(old(ledger), capacity, o) && ledger.entries == old(ledger).entries
    {
      assert Summarises(pending[i], ledger.queue[i]);
      MergedSummary(pending[i], ledger.queue[i], o);
      WeighOne(o, AnyBytes);
      pending := pending[i := pending[i].(bytes := pending[i].bytes + record.bytes, observedAt := record.observedAt)];
      ledger := ledger.(queue := ledger.queue[i := ledger.queue[i] + [o]]);
    }

    method FinalizeOldest(stats: S.Stats)
      requires Books(stats)
      modifies this, stats
      ensures Books(stats)
      ensures ledger == if old(ledger).queue == [] then old(ledger) else DecideOldest(old(ledger))
      ensures |pending| == if old(pending) == [] then 0 else |old(pending)| - 1
    {
      if pending != [] {
        Commit(stats, None, pending[0]);
      }
    }

    /** Removes the oldest record and credits its bytes, once, to `process`. */
    method Commit(stats: S.Stats, process: Option<ObservedProcess>, oldest: PendingAttribution)
      requires Books(stats) && pending != [] && oldest == pending[0]
      modifies this, stats
      ensures Books(stats)
      ensures pending == old(pending)[1..]
      ensures ledger == Decide(old(ledger), process, old(ledger).queue[0]).(queue := old(ledger).queue[1..])
    {
      assert Summarises(oldest, ledger.queue[0]);
      ghost var group := ledger.queue[0];
      forall i | 0 <= i < |pending[1..]| ensures Summarises(pending[1..][i], ledger.queue[1..][i]) {
        assert Summarises(pending[i + 1], ledger.queue[i + 1]);
      }
      pending := pending[1..];
      ledger := ledger.(queue := ledger.queue[1..]);
      Post(stats, process, oldest.direction, oldest.bytes, oldest.observedAt, group);
    }

    /** Credits a decided group to the statistics. */
    method Post(
      stats: S.Stats, process: Option<ObservedProcess>, direction: Direction, bytes: nat, at: Time, ghost group: Group)
      requires Books(stats) && Uniform(group)
      requires direction == DirectionOf(group) && bytes == Weigh(group, AnyBytes) && at == LastAt(group)
      modifies this`ledger, stats
      ensures Books(stats)
      ensures ledger == Decide(old(ledger), process, group)
    {
      PostEntry(ledger.entries, Decision(process, group));
      stats.RecordProcess(process, direction, bytes, at);
      ledger := Decide(ledger, process, group);
    }
  }
}
