/** A run whose counters all fit 64 bits, and whose process list is wrong because one total does not. */
module Overflow {
  import opened Net
  import opened ProcTables
  import L = Ledgers
  import opened LedgerLaws
  import opened Postings
  import opened Statistics
  import opened TopN
  import opened Accounting

  const HALF: nat := 0x8000_0000_0000_0000

  lemma HalvesWrap()
    ensures Traffic(HALF, HALF).WrappingTotal() == 0 && Traffic(HALF, HALF).Total() == 0xFFFF_FFFF_FFFF_FFFF
  {
  }

  // ----- One flow of a known process -----

  /** A flow between a local socket and a remote end. */
  function FlowOf(socket: LocalSocket, direction: Direction, bytes: nat): Flow {
    Flow(direction, V4(2), Some(443), bytes, Some(socket), None, None)
  }

  /** A call that finds the flow's process in `table`. */
  function CallOf(table: ProcTable, flow: Flow): L.Call {
    L.FlowCall(flow, L.Reads(L.Read(table, 0), _ => L.Read(table, 0), L.Read(table, 0), L.Read(table, 0)), 0, 0)
  }

  /** With nothing waiting, a flow of a known process is recorded and credited at once. */
  lemma CreditedAtOnce(
    l: L.Ledger, lim: L.Limits, table: ProcTable, socket: LocalSocket, direction: Direction, bytes: nat,
    process: ObservedProcess)
    returns (group: L.Group)
    requires l.queue == [] && L.LookupProcess(L.Read(table, 0), socket) == Some(process)
    ensures group != [] && group[0].direction == direction
    ensures L.Weigh(group, AnyBytes) == bytes && LastAt(group) == 0
    ensures var flow := FlowOf(socket, direction, bytes);
            var l' := L.Perform(l, lim, CallOf(table, flow));
            && l'.entries == l.entries + [L.Traffic(flow, 0, 0)] + [L.Decision(Some(process), group)]
            && l'.queue == []
  {
    var flow := FlowOf(socket, direction, bytes);
    group := L.Endpoints(flow, 0, 0, |l.entries|);
    assert group == [group[0]];
    L.WeighOne(group[0], AnyBytes);
  }

  function Credited(
    m: map<ProcessKey, Traffic>, process: ObservedProcess, direction: Direction, bytes: nat): map<ProcessKey, Traffic>
  {
    var key := ProcessKey(process.pid, process.path);
    m[key := At(m, key, Traffic(0, 0)).Add(direction, bytes)]
  }

  function LineOf(direction: Direction, bytes: nat): Posting {
    Posting(Remote(V4(2)), direction, bytes, 0, None)
  }

  function CreditOf(process: ObservedProcess, direction: Direction, bytes: nat): Posting {
    ProcessPosting(Some(process), direction, bytes, 0)
  }

  lemma CreditPosted(
    entries: seq<L.Entry>, flow: Flow, process: ObservedProcess, group: L.Group)
    requires flow.peer == V4(2) && flow.peerLocalSocket.None? && flow.domain.None?
    requires group != [] && group[0].direction == flow.direction
    requires L.Weigh(group, AnyBytes) == flow.bytes && LastAt(group) == 0
    ensures PostAll(entries + [L.Traffic(flow, 0, 0)] + [L.Decision(Some(process), group)]) ==
            PostAll(entries) + [LineOf(flow.direction, flow.bytes)] + [CreditOf(process, flow.direction, flow.bytes)]
  {
    PostEntry(entries, L.Traffic(flow, 0, 0));
    PostEntry(entries + [L.Traffic(flow, 0, 0)], L.Decision(Some(process), group));
  }

  lemma CreditMoves(v: Counters, process: ObservedProcess, direction: Direction, bytes: nat)
    ensures var v' := Count(Count(v, LineOf(direction, bytes)), CreditOf(process, direction, bytes));
            && UnattributedRows(v') == UnattributedRows(v)
            && v'.inBytes == v.inBytes + (if direction == Inbound then bytes else 0)
            && v'.outBytes == v.outBytes + (if direction == Outbound then bytes else 0)
            && v'.processes.traffic == Credited(v.processes.traffic, process, direction, bytes)
  {
  }

  /** The counters follow: the interface total and the process each gain the bytes. */
  lemma CreditCounted(v: Counters, log: seq<Posting>, process: ObservedProcess, direction: Direction, bytes: nat)
    returns (v': Counters)
    requires Represents(v, log)
    ensures Represents(v', log + [LineOf(direction, bytes)] + [CreditOf(process, direction, bytes)])
    ensures UnattributedRows(v') == UnattributedRows(v)
    ensures v'.inBytes == v.inBytes + (if direction == Inbound then bytes else 0)
    ensures v'.outBytes == v.outBytes + (if direction == Outbound then bytes else 0)
    ensures v'.processes.traffic == Credited(v.processes.traffic, process, direction, bytes)
  {
    var line, credit := LineOf(direction, bytes), CreditOf(process, direction, bytes);
    CountRepresents(v, log, line);
    CountRepresents(Count(v, line), log + [line], credit);
    CreditMoves(v, process, direction, bytes);
    v' := Count(Count(v, line), credit);
  }

  /** A run of well-formed flows after which nothing waits, and its counters. */
  ghost predicate Settled(v: Counters, lim: L.Limits, calls: seq<L.Call>) {
    CountersOf(v, lim, calls) && L.Run(lim, calls).queue == [] && AllWellFormed(L.Run(lim, calls).entries)
  }

  lemma NothingCounted(lim: L.Limits) returns (v: Counters)
    ensures Settled(v, lim, [])
    ensures v.processes.traffic == map[] && UnattributedRows(v) == [] && v.inBytes == v.outBytes == 0
  {
    v := Counters(0, 0, IpTable(map[], map[]), IpTable(map[], map[]), ProcessTable(map[], map[], map[]),
                  Traffic(0, 0), None, DomainTable(map[], map[]));
  }

  /** Every call of `calls` reads this table. */
  ghost predicate SeesOnly(calls: seq<L.Call>, table: ProcTable) {
    forall k :: 0 <= k < |calls| ==> exists flow :: calls[k] == CallOf(table, flow)
  }

  lemma FlowRecorded(
    lim: L.Limits, calls: seq<L.Call>, table: ProcTable, socket: LocalSocket, direction: Direction, bytes: nat,
    process: ObservedProcess)
    returns (group: L.Group)
    requires L.Run(lim, calls).queue == [] && L.LookupProcess(L.Read(table, 0), socket) == Some(process)
    ensures group != [] && group[0].direction == direction
    ensures L.Weigh(group, AnyBytes) == bytes && LastAt(group) == 0
    ensures var flow := FlowOf(socket, direction, bytes);
            var l' := L.Run(lim, calls + [CallOf(table, flow)]);
            && l'.queue == []
            && l'.entries == L.Run(lim, calls).entries + [L.Traffic(flow, 0, 0)] + [L.Decision(Some(process), group)]
  {
    var call := CallOf(table, FlowOf(socket, direction, bytes));
    group := CreditedAtOnce(L.Run(lim, calls), lim, table, socket, direction, bytes, process);
    assert (calls + [call])[..|calls|] == calls;
  }

  lemma FlowSettles(
    lim: L.Limits, calls: seq<L.Call>, table: ProcTable, socket: LocalSocket, direction: Direction, bytes: nat,
    process: ObservedProcess)
    requires L.Run(lim, calls).queue == [] && AllWellFormed(L.Run(lim, calls).entries)
    requires L.LookupProcess(L.Read(table, 0), socket) == Some(process)
    ensures var l' := L.Run(lim, calls + [CallOf(table, FlowOf(socket, direction, bytes))]);
            && l'.queue == [] && AllWellFormed(l'.entries)
            && PostAll(l'.entries) == PostAll(L.Run(lim, calls).entries)
                                      + [LineOf(direction, bytes)] + [CreditOf(process, direction, bytes)]
  {
    var group := FlowRecorded(lim, calls, table, socket, direction, bytes, process);
    CreditPosted(L.Run(lim, calls).entries, FlowOf(socket, direction, bytes), process, group);
  }

  lemma OneMoreFlow(
    v: Counters, lim: L.Limits, calls: seq<L.Call>, table: ProcTable, socket: LocalSocket, direction: Direction,
    bytes: nat, process: ObservedProcess)
    returns (v': Counters, calls': seq<L.Call>)
    requires Settled(v, lim, calls) && SeesOnly(calls, table)
    requires L.LookupProcess(L.Read(table, 0), socket) == Some(process)
    ensures Settled(v', lim, calls') && SeesOnly(calls', table)
    ensures UnattributedRows(v') == UnattributedRows(v)
    ensures v'.inBytes == v.inBytes + (if direction == Inbound then bytes else 0)
    ensures v'.outBytes == v.outBytes + (if direction == Outbound then bytes else 0)
    ensures v'.processes.traffic == Credited(v.processes.traffic, process, direction, bytes)
  {
    calls' := calls + [CallOf(table, FlowOf(socket, direction, bytes))];
    FlowSettles(lim, calls, table, socket, direction, bytes, process);
    v' := CreditCounted(v, PostAll(L.Run(lim, calls).entries), process, direction, bytes);
  }

  // ----- The table: one listener on each of two sockets -----

  const LARGE := LocalSocket(V4(1), 1000, Tcp)
  const SMALL := LocalSocket(V4(1), 2000, Tcp)

  lemma TwoListeners() returns (table: ProcTable, records: seq<ListenerRecord>)
    ensures Indexes(table.entries, table.v4MappedAliases, records) && table.IsFreshAt(0)
    ensures L.LookupProcess(L.Read(table, 0), LARGE) == Some(ObservedProcess(1, None, None))
    ensures L.LookupProcess(L.Read(table, 0), SMALL) == Some(ObservedProcess(2, None, None))
  {
    var r, q := ListenerRecord(LARGE, 1, "", "", None), ListenerRecord(SMALL, 2, "", "", None);
    var one := FileUnder(map[], SocketKeys(LARGE), InfoOf(r));
    var two := FileUnder(one, SocketKeys(SMALL), InfoOf(q));
    records := [] + [r] + [q];
    forall key ensures IndexesAt(two, {}, records, key) {
      assert IndexesAt(map[], {}, [], key);
      IndexAppend(map[], {}, [], r, key);
      IndexAppend(one, {} + AliasKeys(LARGE), [] + [r], q, key);
      assert {} + AliasKeys(LARGE) + AliasKeys(SMALL) == {};
    }
    table := ProcTable(two, {}, Some(0), 1, 0, true);
    FoundAlone(table, records, r);
    FoundAlone(table, records, q);
  }

  /** A process that alone listens on a socket is found there. */
  lemma FoundAlone(table: ProcTable, records: seq<ListenerRecord>, r: ListenerRecord)
    requires Indexes(table.entries, table.v4MappedAliases, records) && table.IsFreshAt(0)
    requires r in records && r.name == "" && r.path == "" && r.fileName.None?
    requires forall q :: q in records && Serves(q, r.socket) ==> q == r
    ensures L.LookupProcess(L.Read(table, 0), r.socket) == Some(ObservedProcess(r.pid, None, None))
  {
    LookupAgreesWithScan(table, records, r.socket, 0);
    assert Pids(records, r.socket) == {r.pid};
    FirstServingIsFirst(records, r.socket, r.pid);
  }

  // ----- The run -----

  lemma CreditsAddUp(
    none: map<ProcessKey, Traffic>, one: map<ProcessKey, Traffic>, two: map<ProcessKey, Traffic>,
    three: map<ProcessKey, Traffic>, large: ObservedProcess, small: ObservedProcess)
    requires large.pid != small.pid && none == map[]
    requires one == Credited(none, large, Inbound, HALF) && two == Credited(one, large, Outbound, HALF)
    requires three == Credited(two, small, Inbound, 1)
    ensures three.Keys == {ProcessKey(large.pid, large.path), ProcessKey(small.pid, small.path)}
    ensures three[ProcessKey(large.pid, large.path)] == Traffic(HALF, HALF)
    ensures three[ProcessKey(small.pid, small.path)] == Traffic(1, 0)
  {
  }

  /** Three flows: 2^63 bytes each way for one process, and a single byte for another. */
  lemma OneTotalOverflows(lim: L.Limits, table: ProcTable, large: ObservedProcess, small: ObservedProcess)
    returns (calls: seq<L.Call>, v: Counters)
    requires L.LookupProcess(L.Read(table, 0), LARGE) == Some(large)
    requires L.LookupProcess(L.Read(table, 0), SMALL) == Some(small) && large.pid != small.pid
    ensures Settled(v, lim, calls) && SeesOnly(calls, table)
    ensures var (a, b) := (ProcessKey(large.pid, large.path), ProcessKey(small.pid, small.path));
            && v.processes.traffic.Keys == {a, b}
            && v.processes.traffic[a] == Traffic(HALF, HALF) && v.processes.traffic[b] == Traffic(1, 0)
    ensures UnattributedRows(v) == [] && v.inBytes == HALF + 1 && v.outBytes == HALF
  {
    var none := NothingCounted(lim);
    var one, firstCall := OneMoreFlow(none, lim, [], table, LARGE, Inbound, HALF, large);
    var two, twoCalls := OneMoreFlow(one, lim, firstCall, table, LARGE, Outbound, HALF, large);
    v, calls := OneMoreFlow(two, lim, twoCalls, table, SMALL, Inbound, 1, small);
    CreditsAddUp(none.processes.traffic, one.processes.traffic, two.processes.traffic, v.processes.traffic,
                 large, small);
  }

  lemma EveryCounterFits(v: Counters, lim: L.Limits, calls: seq<L.Call>)
    requires Settled(v, lim, calls) && v.inBytes == HALF + 1 && v.outBytes == HALF
    ensures forall row, d :: Amount(v, row, d) <= InterfaceTotal(v, d) < 0x1_0000_0000_0000_0000
  {
    forall row, d ensures Amount(v, row, d) <= InterfaceTotal(v, d) {
      AmountsWithinTotal(v, lim, calls, row, d);
    }
  }

  /**
   * Under any limits, three flows captured with one table: every counter fits 64 bits, and still a
   * snapshot may list the small process alone.
   */
  lemma OverflowCanDropTheLargest(lim: L.Limits)
    returns (
      table: ProcTable, records: seq<ListenerRecord>,
      calls: seq<L.Call>, v: Counters, list: seq<ProcessSnapshot>)
    ensures Indexes(table.entries, table.v4MappedAliases, records) && table.IsFreshAt(0)
    ensures SeesOnly(calls, table)
    ensures CountersOf(v, lim, calls) && AllWellFormed(L.Run(lim, calls).entries)
    ensures forall row, d :: Amount(v, row, d) <= InterfaceTotal(v, d) < 0x1_0000_0000_0000_0000
    ensures ProcessListing(v, list, 1) && !IsTopN(list, AllProcessRows(v), 1, ProcessTotal)
  {
    table, records := TwoListeners();
    var large, small := ObservedProcess(1, None, None), ObservedProcess(2, None, None);
    calls, v := OneTotalOverflows(lim, table, large, small);
    EveryCounterFits(v, lim, calls);
    list := SmallOneAlone(v, ProcessKey(large.pid, large.path), ProcessKey(small.pid, small.path));
  }

  lemma SmallOneAlone(v: Counters, large: ProcessKey, small: ProcessKey) returns (list: seq<ProcessSnapshot>)
    requires large != small && v.processes.traffic.Keys == {large, small} && UnattributedRows(v) == []
    requires v.processes.traffic[large] == Traffic(HALF, HALF) && v.processes.traffic[small] == Traffic(1, 0)
    ensures ProcessListing(v, list, 1) && !IsTopN(list, AllProcessRows(v), 1, ProcessTotal)
  {
    HalvesWrap();
    OneFits();
    LowerRowAlone(v, small, large);
    HigherRowOmitted(v, small, large);
    list := [ToProcessRow(v.processes)((small, v.processes.traffic[small]))];
  }

  lemma OneFits()
    ensures Traffic(1, 0).WrappingTotal() == 1 && Traffic(1, 0).Total() == 1
  {
  }
}
