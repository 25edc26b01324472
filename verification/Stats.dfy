/** The reference for the statistics: a log of postings, and what any query over it must answer. */
module Postings {
  import opened Net

  datatype ProcessKey = ProcessKey(pid: U32, path: Option<string>)

  /** One line of the statistics: a remote address, a process, the unattributed line or a domain. */
  datatype Row = Remote(ip: IpAddr) | Process(key: ProcessKey) | Unattributed | Domain(host: string)

  /** `bytes` of one direction credited to `row`; `name` is the process name seen with it, if any. */
  datatype Posting = Posting(row: Row, direction: Direction, bytes: nat, at: Time, name: Option<string>)

  /** Which postings a query ranges over. */
  datatype Scope =
    | Cell(row: Row, direction: Direction)
    | Whole(row: Row)
    | Remotes(direction: Direction)
    | Processes(direction: Direction)
    | Domains(direction: Direction)
    | Attribution(direction: Direction)    // processes and the unattributed line
  {
    predicate Covers(p: Posting) {
      match this
      case Cell(row, d) => p.row == row && p.direction == d
      case Whole(row) => p.row == row
      case Remotes(d) => p.row.Remote? && p.direction == d
      case Processes(d) => p.row.Process? && p.direction == d
      case Domains(d) => p.row.Domain? && p.direction == d
      case Attribution(d) => (p.row.Process? || p.row.Unattributed?) && p.direction == d
    }
  }

  ghost function Bytes(log: seq<Posting>, scope: Scope): nat {
    if log == [] then 0
    else
      var p := log[|log| - 1];
      Bytes(log[..|log| - 1], scope) + if scope.Covers(p) then p.bytes else 0
  }

  ghost function LastSeen(log: seq<Posting>, scope: Scope): Option<Time> {
    if log == [] then None
    else
      var p := log[|log| - 1];
      if scope.Covers(p) then Some(p.at) else LastSeen(log[..|log| - 1], scope)
  }

  ghost function FirstName(log: seq<Posting>, key: ProcessKey): Option<string> {
    if log == [] then None
    else
      var p := log[|log| - 1];
      var earlier := FirstName(log[..|log| - 1], key);
      if earlier.None? && p.row == Process(key) then p.name else earlier
  }

  lemma PostAt(log: seq<Posting>, p: Posting, scope: Scope)
    ensures Bytes(log + [p], scope) == Bytes(log, scope) + if scope.Covers(p) then p.bytes else 0
    ensures LastSeen(log + [p], scope) == if scope.Covers(p) then Some(p.at) else LastSeen(log, scope)
  {
    assert (log + [p])[..|log + [p]| - 1] == log;
  }

  lemma PostName(log: seq<Posting>, p: Posting, key: ProcessKey)
    ensures FirstName(log + [p], key) ==
            if FirstName(log, key).None? && p.row == Process(key) then p.name else FirstName(log, key)
  {
    assert (log + [p])[..|log + [p]| - 1] == log;
  }

  lemma {:induction false} BytesAppend(log: seq<Posting>, more: seq<Posting>, scope: Scope)
    ensures Bytes(log + more, scope) == Bytes(log, scope) + Bytes(more, scope)
  {
    if more == [] {
      assert log + more == log;
    } else {
      var init := more[..|more| - 1];
      assert (log + more)[..|log + more| - 1] == log + init;
      BytesAppend(log, init, scope);
    }
  }

  lemma {:induction false} SeenExactlyWhenCovered(log: seq<Posting>, scope: Scope)
    ensures LastSeen(log, scope).None? <==> forall p :: p in log ==> !scope.Covers(p)
    ensures LastSeen(log, scope).None? ==> Bytes(log, scope) == 0
  {
    if log != [] {
      SeenExactlyWhenCovered(log[..|log| - 1], scope);
      assert log == log[..|log| - 1] + [log[|log| - 1]];
    }
  }

  /** A narrower scope holds no more bytes. */
  lemma {:induction false} NarrowerHoldsLess(log: seq<Posting>, narrow: Scope, wide: Scope)
    requires forall p :: narrow.Covers(p) ==> wide.Covers(p)
    ensures Bytes(log, narrow) <= Bytes(log, wide)
  {
    if log != [] {
      NarrowerHoldsLess(log[..|log| - 1], narrow, wide);
    }
  }

  lemma {:induction false} AttributionSplits(log: seq<Posting>, d: Direction)
    ensures Bytes(log, Attribution(d)) == Bytes(log, Processes(d)) + Bytes(log, Cell(Unattributed, d))
  {
    if log != [] {
      AttributionSplits(log[..|log| - 1], d);
    }
  }

  // ----- Adding up rows -----

  ghost function SumCells(log: seq<Posting>, rows: seq<Row>, d: Direction): nat {
    if rows == [] then 0 else Bytes(log, Cell(rows[0], d)) + SumCells(log, rows[1..], d)
  }

  lemma {:induction false} SumCellsPost(log: seq<Posting>, p: Posting, rows: seq<Row>, d: Direction)
    requires forall i, j :: 0 <= i < j < |rows| ==> rows[i] != rows[j]
    ensures SumCells(log + [p], rows, d) ==
            SumCells(log, rows, d) + if p.row in rows && p.direction == d then p.bytes else 0
  {
    if rows != [] {
      PostAt(log, p, Cell(rows[0], d));
      SumCellsPost(log, p, rows[1..], d);
    }
  }

  /** Rows listed without repeats hold at most what a scope around them holds, and all of it if they miss no byte. */
  lemma {:induction false} RowsAddUp(log: seq<Posting>, rows: seq<Row>, scope: Scope, d: Direction)
    requires forall i, j :: 0 <= i < j < |rows| ==> rows[i] != rows[j]
    requires forall p: Posting :: p.row in rows && p.direction == d ==> scope.Covers(p)
    ensures SumCells(log, rows, d) <= Bytes(log, scope)
    ensures (forall p :: p in log && scope.Covers(p) && p.bytes > 0 ==> p.row in rows && p.direction == d) ==>
              SumCells(log, rows, d) == Bytes(log, scope)
  {
    if log == [] {
      EmptyCells(rows, d);
    } else {
      var init, p := log[..|log| - 1], log[|log| - 1];
      assert log == init + [p];
      RowsAddUp(init, rows, scope, d);
      SumCellsPost(init, p, rows, d);
    }
  }

  lemma {:induction false} EmptyCells(rows: seq<Row>, d: Direction)
    ensures SumCells([], rows, d) == 0
  {
    if rows != [] {
      EmptyCells(rows[1..], d);
    }
  }
}

/** Cumulative statistics since start: counters updated in place, and ranked snapshots of them. */
module Statistics {
  import opened Net
  import opened Postings
  import opened TopN

  datatype Traffic = Traffic(recv: nat, sent: nat) {
    function Add(d: Direction, bytes: nat): Traffic {
      if d == Inbound then this.(recv := recv + bytes) else this.(sent := sent + bytes)
    }

    function Of(d: Direction): nat {
      if d == Inbound then recv else sent
    }

    /** The ranking key: an unchecked 64-bit sum. */
    function WrappingTotal(): nat {
      (recv + sent) % TWO_TO_64
    }

    /** The reported total: a saturating 64-bit sum. */
    function Total(): nat {
      Min(recv + sent, TWO_TO_64 - 1)
    }
  }

  datatype Identity = Attributed(pid: U32, name: Option<string>, path: Option<string>) | NoProcess

  datatype ProcessSnapshot = ProcessSnapshot(identity: Identity, traffic: Traffic, lastSeen: Time)

  datatype IpSnapshot = IpSnapshot(ip: IpAddr, bytes: nat, lastSeen: Time)

  datatype DomainSnapshot = DomainSnapshot(host: string, traffic: Traffic, lastSeen: Time)

  datatype TrafficSnapshot = TrafficSnapshot(
    inBytes: nat,
    outBytes: nat,
    processDataFresh: bool,
    pendingAttributionBytes: nat,
    processes: seq<ProcessSnapshot>,
    inboundIps: seq<IpSnapshot>,
    outboundIps: seq<IpSnapshot>,
    outboundDomains: seq<DomainSnapshot>)

  // ----- The values of all counters at one moment -----

  function At<K, V>(m: map<K, V>, k: K, default: V): V {
    if k in m then m[k] else default
  }

  function Lookup<K, V>(m: map<K, V>, k: K): Option<V> {
    if k in m then Some(m[k]) else None
  }

  datatype IpTable = IpTable(bytes: map<IpAddr, nat>, lastSeen: map<IpAddr, Time>) {
    function Count(ip: IpAddr, n: nat, at: Time): IpTable {
      IpTable(bytes[ip := At(bytes, ip, 0) + n], lastSeen[ip := at])
    }
  }

  datatype ProcessTable = ProcessTable(
    traffic: map<ProcessKey, Traffic>, lastSeen: map<ProcessKey, Time>, names: map<ProcessKey, string>)
  {
    function Count(key: ProcessKey, d: Direction, n: nat, at: Time, name: Option<string>): ProcessTable {
      ProcessTable(
        traffic[key := At(traffic, key, Traffic(0, 0)).Add(d, n)],
        lastSeen[key := at],
        if name.Some? && key !in names then names[key := name.value] else names)
    }
  }

  datatype DomainTable = DomainTable(traffic: map<string, Traffic>, lastSeen: map<string, Time>) {
    function Count(host: string, d: Direction, n: nat, at: Time): DomainTable {
      DomainTable(traffic[host := At(traffic, host, Traffic(0, 0)).Add(d, n)], lastSeen[host := at])
    }
  }

  datatype Counters = Counters(
    inBytes: nat,
    outBytes: nat,
    inIps: IpTable,
    outIps: IpTable,
    processes: ProcessTable,
    unattributed: Traffic,
    unattributedLastSeen: Option<Time>,
    domains: DomainTable)

  /** The counters after one more posting. */
  function Count(v: Counters, p: Posting): Counters {
    match p.row
    case Remote(ip) =>
      if p.direction == Inbound
      then v.(inBytes := v.inBytes + p.bytes, inIps := v.inIps.Count(ip, p.bytes, p.at))
      else v.(outBytes := v.outBytes + p.bytes, outIps := v.outIps.Count(ip, p.bytes, p.at))
    case Process(key) => v.(processes := v.processes.Count(key, p.direction, p.bytes, p.at, p.name))
    case Unattributed =>
      v.(unattributed := v.unattributed.Add(p.direction, p.bytes), unattributedLastSeen := Some(p.at))
    case Domain(host) => v.(domains := v.domains.Count(host, p.direction, p.bytes, p.at))
  }

  // ----- The counters are exactly the answers of the log -----

  ghost predicate IpMatches(t: IpTable, log: seq<Posting>, d: Direction, ip: IpAddr) {
    && (ip in t.bytes <==> ip in t.lastSeen)
    && At(t.bytes, ip, 0) == Bytes(log, Cell(Remote(ip), d))
    && Lookup(t.lastSeen, ip) == LastSeen(log, Cell(Remote(ip), d))
  }

  ghost predicate TrafficMatches(t: Traffic, log: seq<Posting>, row: Row) {
    t.recv == Bytes(log, Cell(row, Inbound)) && t.sent == Bytes(log, Cell(row, Outbound))
  }

  ghost predicate ProcessMatches(t: ProcessTable, log: seq<Posting>, key: ProcessKey) {
    && (key in t.traffic <==> key in t.lastSeen)
    && TrafficMatches(At(t.traffic, key, Traffic(0, 0)), log, Process(key))
    && Lookup(t.lastSeen, key) == LastSeen(log, Whole(Process(key)))
    && Lookup(t.names, key) == FirstName(log, key)
  }

  ghost predicate DomainMatches(t: DomainTable, log: seq<Posting>, host: string) {
    && (host in t.traffic <==> host in t.lastSeen)
    && TrafficMatches(At(t.traffic, host, Traffic(0, 0)), log, Domain(host))
    && Lookup(t.lastSeen, host) == LastSeen(log, Whole(Domain(host)))
  }

  /** `v` answers every query as the log does, and each map has the keys of its last-seen map. */
  ghost predicate Represents(v: Counters, log: seq<Posting>) {
    && v.inBytes == Bytes(log, Remotes(Inbound))
    && v.outBytes == Bytes(log, Remotes(Outbound))
    && (forall ip :: IpMatches(v.inIps, log, Inbound, ip))
    && (forall ip :: IpMatches(v.outIps, log, Outbound, ip))
    && (forall key :: ProcessMatches(v.processes, log, key))
    && TrafficMatches(v.unattributed, log, Unattributed)
    && v.unattributedLastSeen == LastSeen(log, Whole(Unattributed))
    && (forall host :: DomainMatches(v.domains, log, host))
  }

  /** Counting a posting in place keeps every counter the answer of the longer log. */
  lemma CountRepresents(v: Counters, log: seq<Posting>, p: Posting)
    requires Represents(v, log)
    ensures Represents(Count(v, p), log + [p])
  {
    var v', log' := Count(v, p), log + [p];
    PostAt(log, p, Remotes(Inbound));
    PostAt(log, p, Remotes(Outbound));
    PostAt(log, p, Whole(Unattributed));
    CountTraffic(v.unattributed, log, p, Unattributed);
    forall ip ensures IpMatches(v'.inIps, log', Inbound, ip) {
      CountIp(v.inIps, log, p, Inbound, ip);
    }
    forall ip ensures IpMatches(v'.outIps, log', Outbound, ip) {
      CountIp(v.outIps, log, p, Outbound, ip);
    }
    forall key ensures ProcessMatches(v'.processes, log', key) {
      CountProcess(v.processes, log, p, key);
    }
    forall host ensures DomainMatches(v'.domains, log', host) {
      CountDomain(v.domains, log, p, host);
    }
  }

  lemma CountTraffic(t: Traffic, log: seq<Posting>, p: Posting, row: Row)
    requires TrafficMatches(t, log, row)
    ensures TrafficMatches(if p.row == row then t.Add(p.direction, p.bytes) else t, log + [p], row)
  {
    PostAt(log, p, Cell(row, Inbound));
    PostAt(log, p, Cell(row, Outbound));
  }

  lemma CountIp(t: IpTable, log: seq<Posting>, p: Posting, d: Direction, ip: IpAddr)
    requires IpMatches(t, log, d, ip)
    ensures IpMatches(
      if p.row.Remote? && p.direction == d then t.Count(p.row.ip, p.bytes, p.at) else t, log + [p], d, ip)
  {
    PostAt(log, p, Cell(Remote(ip), d));
  }

  lemma CountProcess(t: ProcessTable, log: seq<Posting>, p: Posting, key: ProcessKey)
    requires ProcessMatches(t, log, key)
    ensures ProcessMatches(
      if p.row.Process? then t.Count(p.row.key, p.direction, p.bytes, p.at, p.name) else t, log + [p], key)
  {
    PostAt(log, p, Whole(Process(key)));
    PostName(log, p, key);
    CountTraffic(At(t.traffic, key, Traffic(0, 0)), log, p, Process(key));
  }

  lemma CountDomain(t: DomainTable, log: seq<Posting>, p: Posting, host: string)
    requires DomainMatches(t, log, host)
    ensures DomainMatches(
      if p.row.Domain? then t.Count(p.row.host, p.direction, p.bytes, p.at) else t, log + [p], host)
  {
    PostAt(log, p, Whole(Domain(host)));
    CountTraffic(At(t.traffic, host, Traffic(0, 0)), log, p, Domain(host));
  }

  // ----- Rows of a snapshot -----

  function ProcessRow(t: ProcessTable, e: (ProcessKey, Traffic)): ProcessSnapshot {
    ProcessSnapshot(Attributed(e.0.pid, Lookup(t.names, e.0), e.0.path), e.1, At(t.lastSeen, e.0, 0))
  }

  /** The unattributed line, present when it holds any bytes. */
  function UnattributedRows(v: Counters): seq<ProcessSnapshot> {
    if (v.unattributed.recv > 0 || v.unattributed.sent > 0) && v.unattributedLastSeen.Some?
    then [ProcessSnapshot(NoProcess, v.unattributed, v.unattributedLastSeen.value)]
    else []
  }

  function IpRow(t: IpTable, e: (IpAddr, nat)): IpSnapshot {
    IpSnapshot(e.0, e.1, At(t.lastSeen, e.0, 0))
  }

  function DomainRow(t: DomainTable, e: (string, Traffic)): DomainSnapshot {
    DomainSnapshot(e.0, e.1, At(t.lastSeen, e.0, 0))
  }

  function ToProcessRow(t: ProcessTable): ((ProcessKey, Traffic)) -> ProcessSnapshot { e => ProcessRow(t, e) }
  function ToDomainRow(t: DomainTable): ((string, Traffic)) -> DomainSnapshot { e => DomainRow(t, e) }
  function ToIpRow(t: IpTable): ((IpAddr, nat)) -> IpSnapshot { e => IpRow(t, e) }

  ghost function RowsOf<K, V, R>(m: map<K, V>, toRow: ((K, V)) -> R): set<R> {
    set k | k in m :: toRow((k, m[k]))
  }

  ghost function KnownProcessRows(v: Counters): set<ProcessSnapshot> {
    RowsOf(v.processes.traffic, ToProcessRow(v.processes))
  }

  ghost function AllProcessRows(v: Counters): set<ProcessSnapshot> {
    KnownProcessRows(v) + Elems(UnattributedRows(v))
  }

  ghost function AllIpRows(t: IpTable): set<IpSnapshot> {
    RowsOf(t.bytes, ToIpRow(t))
  }

  ghost function AllDomainRows(t: DomainTable): set<DomainSnapshot> {
    RowsOf(t.traffic, ToDomainRow(t))
  }

  function ProcessTotal(p: ProcessSnapshot): nat { p.traffic.Total() }
  function DomainTotal(p: DomainSnapshot): nat { p.traffic.Total() }
  function IpBytes(p: IpSnapshot): nat { p.bytes }
  function ProcessRank(e: (ProcessKey, Traffic)): nat { e.1.WrappingTotal() }
  function DomainRank(e: (string, Traffic)): nat { e.1.WrappingTotal() }
  function IpRank(e: (IpAddr, nat)): nat { e.1 }

  function ProcessKeyOf(p: ProcessSnapshot): nat { p.traffic.WrappingTotal() }
  function DomainKeyOf(p: DomainSnapshot): nat { p.traffic.WrappingTotal() }

  // ----- What a snapshot may list, whatever the order of entries and ties -----

  /** Some order of the map's entries, sorted by `rank` and truncated, gives `list`. */
  ghost predicate RankedRows<K(!new), V(!new), R>(
    list: seq<R>, m: map<K, V>, toRow: ((K, V)) -> R, n: nat, rank: ((K, V)) -> nat)
  {
    exists sorted :: Lists(sorted, m) && SortedDown(sorted, rank) && list == Truncate(Mapped(sorted, toRow), n)
  }

  ghost predicate DomainListing(t: DomainTable, list: seq<DomainSnapshot>, n: nat) {
    RankedRows(list, t.traffic, ToDomainRow(t), n, DomainRank)
  }

  ghost predicate ProcessListing(v: Counters, list: seq<ProcessSnapshot>, n: nat) {
    exists top, merged ::
      && RankedRows(top, v.processes.traffic, ToProcessRow(v.processes), n, ProcessRank)
      && IsSorting(top + UnattributedRows(v), merged, ProcessTotal)
      && list == Truncate(merged, n)
  }

  // ----- When those lists are true -----

  /** No single total overflows, so the unchecked ranking key is the true total. */
  predicate NoOverflow<K(!new)>(m: map<K, Traffic>) {
    forall k :: k in m ==> m[k].recv + m[k].sent < TWO_TO_64
  }

  /** Whatever the reported totals tell apart, the unchecked ranking keys order the same way. */
  predicate KeysAgree<K(!new)>(m: map<K, Traffic>) {
    forall a, b :: a in m && b in m && m[a].Total() > m[b].Total() ==> m[a].WrappingTotal() > m[b].WrappingTotal()
  }

  /**
   * At most as many lines of a lower total can stand in any process's place as there are
   * unattributed lines: none without one, and a single one beside it, which the last cut removes.
   */
  ghost predicate ProcessesOutrank(v: Counters) {
    FewOvertakers(KnownProcessRows(v), Elems(UnattributedRows(v)), ProcessKeyOf, ProcessTotal)
  }

  // ----- The statistics object -----

  class Stats {
    var inBytes: nat
    var outBytes: nat
    var inByIp: map<IpAddr, nat>
    var outByIp: map<IpAddr, nat>
    var inIpLastSeen: map<IpAddr, Time>
    var outIpLastSeen: map<IpAddr, Time>
    var byProc: map<ProcessKey, Traffic>
    var procLastSeen: map<ProcessKey, Time>
    var unattributed: Traffic
    var unattributedLastSeen: Option<Time>
    var procNames: map<ProcessKey, string>
    var byDomain: map<string, Traffic>
    var domainLastSeen: map<string, Time>
    ghost var log: seq<Posting>

    ghost function View(): Counters
      reads this
    {
      Counters(inBytes, outBytes, IpTable(inByIp, inIpLastSeen), IpTable(outByIp, outIpLastSeen),
               ProcessTable(byProc, procLastSeen, procNames), unattributed, unattributedLastSeen,
               DomainTable(byDomain, domainLastSeen))
    }

    ghost predicate Valid()
      reads this
    {
      Represents(View(), log)
    }

    constructor ()
      ensures Valid() && log == []
    {
      inBytes, outBytes := 0, 0;
      inByIp, outByIp, inIpLastSeen, outIpLastSeen := map[], map[], map[], map[];
      byProc, procLastSeen, procNames := map[], map[], map[];
      unattributed, unattributedLastSeen := Traffic(0, 0), None;
      byDomain, domainLastSeen := map[], map[];
      log := [];
    }

    method AddIn(source: IpAddr, bytes: nat, observedAt: Time)
      requires Valid()
      modifies this
      ensures Valid() && log == old(log) + [Posting(Remote(source), Inbound, bytes, observedAt, None)]
    {
      ghost var p := Posting(Remote(source), Inbound, bytes, observedAt, None);
      CountRepresents(View(), log, p);
      inBytes := inBytes + bytes;
      inByIp := inByIp[source := At(inByIp, source, 0) + bytes];
      inIpLastSeen := inIpLastSeen[source := observedAt];
      log := log + [p];
      assert View() == Count(old(View()), p);
    }

    method AddOut(destination: IpAddr, bytes: nat, observedAt: Time)
      requires Valid()
      modifies this
      ensures Valid() && log == old(log) + [Posting(Remote(destination), Outbound, bytes, observedAt, None)]
    {
      ghost var p := Posting(Remote(destination), Outbound, bytes, observedAt, None);
      CountRepresents(View(), log, p);
      outBytes := outBytes + bytes;
      outByIp := outByIp[destination := At(outByIp, destination, 0) + bytes];
      outIpLastSeen := outIpLastSeen[destination := observedAt];
      log := log + [p];
      assert View() == Count(old(View()), p);
    }

    method RecordProcess(process: Option<ObservedProcess>, direction: Direction, bytes: nat, observedAt: Time)
      requires Valid()
      modifies this
      ensures Valid() && log == old(log) + [ProcessPosting(process, direction, bytes, observedAt)]
    {
      match process {
        case Some(observed) => AddProc(observed, direction, bytes, observedAt);
        case None => AddUnattributed(direction, bytes, observedAt);
      }
    }

    method AddProc(observed: ObservedProcess, direction: Direction, bytes: nat, observedAt: Time)
      requires Valid()
      modifies this
      ensures Valid() && log == old(log) + [ProcessPosting(Some(observed), direction, bytes, observedAt)]
    {
      ghost var p := ProcessPosting(Some(observed), direction, bytes, observedAt);
      CountRepresents(View(), log, p);
      var key := ProcessKey(observed.pid, observed.path);
      byProc := byProc[key := At(byProc, key, Traffic(0, 0)).Add(direction, bytes)];
      if observed.name.Some? && key !in procNames {
        procNames := procNames[key := observed.name.value];
      }
      procLastSeen := procLastSeen[key := observedAt];
      log := log + [p];
      assert View() == Count(old(View()), p);
    }

    method AddUnattributed(direction: Direction, bytes: nat, observedAt: Time)
      requires Valid()
      modifies this
      ensures Valid() && log == old(log) + [ProcessPosting(None, direction, bytes, observedAt)]
    {
      ghost var p := ProcessPosting(None, direction, bytes, observedAt);
      CountRepresents(View(), log, p);
      unattributed := unattributed.Add(direction, bytes);
      unattributedLastSeen := Some(observedAt);
      log := log + [p];
      assert View() == Count(old(View()), p);
    }

    method RecordOutboundDomain(domain: Option<string>, direction: Direction, bytes: nat, observedAt: Time)
      requires Valid()
      modifies this
      ensures Valid() && log == old(log) + DomainPostings(domain, direction, bytes, observedAt)
    {
      if domain.None? {
        return;
      }
      var host := domain.value;
      ghost var p := Posting(Domain(host), direction, bytes, observedAt, None);
      CountRepresents(View(), log, p);
      byDomain := byDomain[host := At(byDomain, host, Traffic(0, 0)).Add(direction, bytes)];
      domainLastSeen := domainLastSeen[host := observedAt];
      log := log + [p];
      assert View() == Count(old(View()), p);
    }

    method RecordInterfaceFlow(flow: Flow, observedAt: Time)
      requires Valid()
      modifies this
      ensures Valid() && log == old(log) + InterfacePostings(flow, observedAt)
    {
      if flow.peerLocalSocket.Some? {
        AddOut(flow.peer, flow.bytes, observedAt);
        AddIn(if flow.localSocket.Some? then flow.localSocket.value.ip else flow.peer, flow.bytes, observedAt);
        return;
      }
      match flow.direction {
        case Inbound => AddIn(flow.peer, flow.bytes, observedAt);
        case Outbound => AddOut(flow.peer, flow.bytes, observedAt);
      }
    }

    /** Never fails a look-up of a last-seen time; each list is one that the ranking allows. */
    method Snapshot(n: nat) returns (s: TrafficSnapshot)
      requires Valid()
      ensures s.inBytes == inBytes && s.outBytes == outBytes
      ensures !s.processDataFresh && s.pendingAttributionBytes == 0
      ensures ProcessListing(View(), s.processes, n)
      ensures ProcessesOutrank(View()) ==> IsTopN(s.processes, AllProcessRows(View()), n, ProcessTotal)
      ensures DomainListing(View().domains, s.outboundDomains, n)
      ensures KeysAgree(byDomain) ==> IsTopN(s.outboundDomains, AllDomainRows(View().domains), n, DomainTotal)
      ensures IsTopN(s.inboundIps, AllIpRows(View().inIps), n, IpBytes)
      ensures IsTopN(s.outboundIps, AllIpRows(View().outIps), n, IpBytes)
    {
      forall ip ensures ip in inByIp <==> ip in inIpLastSeen {
        assert IpMatches(View().inIps, log, Inbound, ip);
      }
      forall ip ensures ip in outByIp <==> ip in outIpLastSeen {
        assert IpMatches(View().outIps, log, Outbound, ip);
      }
      var processes := RankProcesses(n);
      var domains := RankDomains(n);
      var inbound := RankIps(inByIp, inIpLastSeen, n);
      var outbound := RankIps(outByIp, outIpLastSeen, n);
      ProcessListTrueExactlyWhen(View());
      DomainListTrueExactlyWhen(View().domains);
      s := TrafficSnapshot(inBytes, outBytes, false, 0, processes, inbound, outbound, domains);
    }

    method RankProcesses(n: nat) returns (processes: seq<ProcessSnapshot>)
      requires Valid()
      ensures ProcessListing(View(), processes, n)
    {
      var entries := EntriesOf(byProc);
      var sorted := SortUnstable(entries, ProcessRank);
      var top := Truncate(sorted, n);
      KeptEntries(byProc, entries, sorted);
      ghost var v := View();
      var rows := AttributedRows(top);
      TruncatedRows(byProc, entries, sorted, rows, ToProcessRow(v.processes), n, ProcessRank);
      UnattributedWasSeen(v, log);
      ghost var known := rows;
      if unattributed.recv > 0 || unattributed.sent > 0 {
        rows := rows + [ProcessSnapshot(NoProcess, unattributed, unattributedLastSeen.value)];
      }
      assert rows == known + UnattributedRows(v);
      var merged := SortUnstable(rows, ProcessTotal);
      processes := Truncate(merged, n);
    }

    method AttributedRows(top: seq<(ProcessKey, Traffic)>) returns (rows: seq<ProcessSnapshot>)
      requires Valid()
      requires forall i :: 0 <= i < |top| ==> top[i].0 in byProc
      ensures |rows| == |top| && forall i :: 0 <= i < |top| ==> rows[i] == ProcessRow(View().processes, top[i])
    {
      rows := [];
      for i := 0 to |top|
        invariant |rows| == i && forall j :: 0 <= j < i ==> rows[j] == ProcessRow(View().processes, top[j])
      {
        var (key, traffic) := top[i];
        assert ProcessMatches(View().processes, log, key);
        var lastSeen := procLastSeen[key];
        rows := rows + [ProcessSnapshot(
          Attributed(key.pid, if key in procNames then Some(procNames[key]) else None, key.path), traffic, lastSeen)];
      }
    }

    method RankDomains(n: nat) returns (domains: seq<DomainSnapshot>)
      requires Valid()
      ensures DomainListing(View().domains, domains, n)
    {
      var entries := EntriesOf(byDomain);
      var sorted := SortUnstable(entries, DomainRank);
      var top := Truncate(sorted, n);
      KeptEntries(byDomain, entries, sorted);
      domains := [];
      ghost var t := View().domains;
      for i := 0 to |top|
        invariant |domains| == i && forall j :: 0 <= j < i ==> domains[j] == DomainRow(t, top[j])
      {
        assert DomainMatches(t, log, top[i].0);
        domains := domains + [DomainSnapshot(top[i].0, top[i].1, domainLastSeen[top[i].0])];
      }
      TruncatedRows(byDomain, entries, sorted, domains, ToDomainRow(t), n, DomainRank);
    }

    static method RankIps(bytes: map<IpAddr, nat>, lastSeen: map<IpAddr, Time>, n: nat) returns (ips: seq<IpSnapshot>)
      requires bytes.Keys == lastSeen.Keys
      ensures IsTopN(ips, AllIpRows(IpTable(bytes, lastSeen)), n, IpBytes)
    {
      var entries := EntriesOf(bytes);
      var sorted := SortUnstable(entries, IpRank);
      var top := Truncate(sorted, n);
      KeptEntries(bytes, entries, sorted);
      ips := IpRows(lastSeen, top);
      ghost var t := IpTable(bytes, lastSeen);
      TruncatedRows(bytes, entries, sorted, ips, ToIpRow(t), n, IpRank);
      IpsRanked(t, ips, n);
    }

    static method IpRows(lastSeen: map<IpAddr, Time>, top: seq<(IpAddr, nat)>) returns (ips: seq<IpSnapshot>)
      requires forall i :: 0 <= i < |top| ==> top[i].0 in lastSeen
      ensures |ips| == |top|
      ensures forall i, bytes :: 0 <= i < |top| ==> ips[i] == IpRow(IpTable(bytes, lastSeen), top[i])
    {
      ips := [];
      for i := 0 to |top|
        invariant |ips| == i && forall j :: 0 <= j < i ==> ips[j] == IpSnapshot(top[j].0, top[j].1, lastSeen[top[j].0])
      {
        ips := ips + [IpSnapshot(top[i].0, top[i].1, lastSeen[top[i].0])];
      }
    }
  }

  function ProcessPosting(process: Option<ObservedProcess>, direction: Direction, bytes: nat, at: Time): Posting {
    match process
    case Some(observed) =>
      Posting(Process(ProcessKey(observed.pid, observed.path)), direction, bytes, at, observed.name)
    case None => Posting(Unattributed, direction, bytes, at, None)
  }

  function DomainPostings(domain: Option<string>, direction: Direction, bytes: nat, at: Time): seq<Posting> {
    if domain.None? then [] else [Posting(Domain(domain.value), direction, bytes, at, None)]
  }

  /** A flow between two local sockets counts once each way; any other counts in its own direction. */
  function InterfacePostings(flow: Flow, at: Time): seq<Posting> {
    if flow.peerLocalSocket.Some? then
      var source := if flow.localSocket.Some? then flow.localSocket.value.ip else flow.peer;
      [Posting(Remote(flow.peer), Outbound, flow.bytes, at, None),
       Posting(Remote(source), Inbound, flow.bytes, at, None)]
    else
      [Posting(Remote(flow.peer), flow.direction, flow.bytes, at, None)]
  }

  // ----- Ranking lemmas -----

  /** Two snapshot lines stand for the same process when pid and path agree; names are not compared. */
  predicate SameIdentity(a: ProcessSnapshot, b: ProcessSnapshot) {
    match (a.identity, b.identity)
    case (NoProcess, NoProcess) => true
    case (Attributed(pid, _, path), Attributed(pid', _, path')) => pid == pid' && path == path'
    case _ => false
  }

  /** No identity is listed twice. */
  lemma ListedIdentitiesDiffer(v: Counters, top: seq<ProcessSnapshot>, n: nat, i: nat, j: nat)
    requires IsTopN(top, AllProcessRows(v), n, ProcessTotal)
    requires i < j < |top|
    ensures !SameIdentity(top[i], top[j])
  {
    assert top[i] in AllProcessRows(v) && top[j] in AllProcessRows(v);
  }

  lemma UnattributedWasSeen(v: Counters, log: seq<Posting>)
    requires Represents(v, log)
    ensures v.unattributed.recv > 0 || v.unattributed.sent > 0 ==> v.unattributedLastSeen.Some?
  {
    SeenExactlyWhenCovered(log, Whole(Unattributed));
    NarrowerHoldsLess(log, Cell(Unattributed, Inbound), Whole(Unattributed));
    NarrowerHoldsLess(log, Cell(Unattributed, Outbound), Whole(Unattributed));
  }

  lemma KeptEntries<K, V>(m: map<K, V>, entries: seq<(K, V)>, sorted: seq<(K, V)>)
    requires Lists(entries, m) && multiset(entries) == multiset(sorted)
    ensures forall i :: 0 <= i < |sorted| ==> sorted[i].0 in m && m[sorted[i].0] == sorted[i].1
  {
    forall i | 0 <= i < |sorted| ensures sorted[i].0 in m && m[sorted[i].0] == sorted[i].1 {
      assert sorted[i] in multiset(sorted);
      assert sorted[i] in entries;
    }
  }

  /** Sorting the entries of a map lists them again. */
  lemma SortedEntries<K, V>(m: map<K, V>, entries: seq<(K, V)>, sorted: seq<(K, V)>)
    requires Lists(entries, m) && multiset(entries) == multiset(sorted)
    ensures Lists(sorted, m)
  {
    RearrangedLists(entries, sorted, Elems(entries));
    forall e ensures e in sorted <==> e in entries {
      assert e in sorted <==> e in Elems(sorted);
    }
  }

  lemma TruncatedRows<K(!new), V(!new), R>(
    m: map<K, V>, entries: seq<(K, V)>, sorted: seq<(K, V)>, list: seq<R>,
    toRow: ((K, V)) -> R, n: nat, rank: ((K, V)) -> nat)
    requires Lists(entries, m) && IsSorting(entries, sorted, rank)
    requires |list| == Min(n, |sorted|) && forall j :: 0 <= j < |list| ==> list[j] == toRow(sorted[j])
    ensures RankedRows(list, m, toRow, n, rank)
  {
    SortedEntries(m, entries, sorted);
    assert list == Truncate(Mapped(sorted, toRow), n);
  }

  lemma EntriesListRows<K, V, R>(m: map<K, V>, entries: seq<(K, V)>, toRow: ((K, V)) -> R, fromRow: R -> (K, V))
    requires Lists(entries, m)
    requires forall k :: k in m ==> fromRow(toRow((k, m[k]))) == (k, m[k])
    ensures Listing(Mapped(entries, toRow), RowsOf(m, toRow))
  {
    var all := Mapped(entries, toRow);
    forall i | 0 <= i < |entries| ensures fromRow(all[i]) == entries[i] && all[i] in RowsOf(m, toRow) {
      assert entries[i] in entries;
      assert entries[i] == (entries[i].0, m[entries[i].0]);
    }
    forall k | k in m ensures toRow((k, m[k])) in all {
      var i :| 0 <= i < |entries| && entries[i] == (k, m[k]);
      assert all[i] == toRow((k, m[k]));
    }
  }

  lemma RowIsOfEntry<K, V, R>(m: map<K, V>, row: R, toRow: ((K, V)) -> R, fromRow: R -> (K, V))
    requires row in RowsOf(m, toRow)
    requires forall k :: k in m ==> fromRow(toRow((k, m[k]))) == (k, m[k])
    ensures fromRow(row).0 in m && m[fromRow(row).0] == fromRow(row).1 && toRow(fromRow(row)) == row
  {
    var k :| k in m && row == toRow((k, m[k]));
  }

  lemma RowsListEntries<K, V, R>(m: map<K, V>, rows: seq<R>, toRow: ((K, V)) -> R, fromRow: R -> (K, V))
    requires Listing(rows, RowsOf(m, toRow))
    requires forall k :: k in m ==> fromRow(toRow((k, m[k]))) == (k, m[k])
    ensures Lists(Mapped(rows, fromRow), m) && Mapped(Mapped(rows, fromRow), toRow) == rows
  {
    var entries := Mapped(rows, fromRow);
    forall i | 0 <= i < |rows|
      ensures entries[i].0 in m && m[entries[i].0] == entries[i].1 && toRow(entries[i]) == rows[i]
    {
      assert rows[i] in Elems(rows);
      RowIsOfEntry(m, rows[i], toRow, fromRow);
    }
    forall k | k in m ensures (k, m[k]) in entries {
      assert toRow((k, m[k])) in Elems(rows);
      var i :| 0 <= i < |rows| && rows[i] == toRow((k, m[k]));
      assert entries[i] == (k, m[k]);
    }
  }

  /** Ranking entries and mapping them to rows is ranking the rows. */
  lemma RankedRowsAreCut<K(!new), V(!new), R(!new)>(
    list: seq<R>, m: map<K, V>, toRow: ((K, V)) -> R, fromRow: R -> (K, V),
    n: nat, rank: ((K, V)) -> nat, key: R -> nat)
    requires forall k :: k in m ==> fromRow(toRow((k, m[k]))) == (k, m[k])
    requires forall k :: k in m ==> key(toRow((k, m[k]))) == rank((k, m[k]))
    ensures RankedRows(list, m, toRow, n, rank) <==> Cut(list, RowsOf(m, toRow), n, key)
  {
    if RankedRows(list, m, toRow, n, rank) {
      var sorted :| Lists(sorted, m) && SortedDown(sorted, rank) && list == Truncate(Mapped(sorted, toRow), n);
      EntriesListRows(m, sorted, toRow, fromRow);
      KeyIsRank(m, sorted, toRow, rank, key);
      assert SortedDown(Mapped(sorted, toRow), key);
    }
    if Cut(list, RowsOf(m, toRow), n, key) {
      var rows :| Listing(rows, RowsOf(m, toRow)) && SortedDown(rows, key) && list == Truncate(rows, n);
      RowsListEntries(m, rows, toRow, fromRow);
      KeyIsRank(m, Mapped(rows, fromRow), toRow, rank, key);
      assert SortedDown(Mapped(rows, fromRow), rank);
    }
  }

  lemma KeyIsRank<K, V, R>(
    m: map<K, V>, entries: seq<(K, V)>, toRow: ((K, V)) -> R, rank: ((K, V)) -> nat, key: R -> nat)
    requires Lists(entries, m)
    requires forall k :: k in m ==> key(toRow((k, m[k]))) == rank((k, m[k]))
    ensures forall i :: 0 <= i < |entries| ==> key(Mapped(entries, toRow)[i]) == rank(entries[i])
  {
    forall i | 0 <= i < |entries| ensures key(toRow(entries[i])) == rank(entries[i]) {
      assert entries[i] in entries;
      assert entries[i] == (entries[i].0, m[entries[i].0]);
    }
  }

  function FromProcessRow(p: ProcessSnapshot): (ProcessKey, Traffic) {
    (match p.identity
     case Attributed(pid, _, path) => ProcessKey(pid, path)
     case NoProcess => ProcessKey(0, None),
     p.traffic)
  }

  function FromDomainRow(d: DomainSnapshot): (string, Traffic) { (d.host, d.traffic) }
  function FromIpRow(i: IpSnapshot): (IpAddr, nat) { (i.ip, i.bytes) }

  lemma IpsRanked(t: IpTable, list: seq<IpSnapshot>, n: nat)
    requires RankedRows(list, t.bytes, ToIpRow(t), n, IpRank)
    ensures IsTopN(list, AllIpRows(t), n, IpBytes)
  {
    RankedRowsAreCut(list, t.bytes, ToIpRow(t), FromIpRow, n, IpRank, IpBytes);
    CutIsTopExactlyWhenKeyAgrees(AllIpRows(t), IpBytes, IpBytes);
  }

  lemma KeysAgreeOnRows<K(!new), R>(
    m: map<K, Traffic>, toRow: ((K, Traffic)) -> R, key: R -> nat, rank: R -> nat)
    requires forall k :: k in m ==> key(toRow((k, m[k]))) == m[k].WrappingTotal()
    requires forall k :: k in m ==> rank(toRow((k, m[k]))) == m[k].Total()
    ensures Agrees(RowsOf(m, toRow), key, rank) <==> KeysAgree(m)
  {
    if Agrees(RowsOf(m, toRow), key, rank) {
      forall a, b | a in m && b in m && m[a].Total() > m[b].Total()
        ensures m[a].WrappingTotal() > m[b].WrappingTotal()
      {
        assert toRow((a, m[a])) in RowsOf(m, toRow) && toRow((b, m[b])) in RowsOf(m, toRow);
      }
    }
  }

  /** Every domain list a snapshot may show is a true top exactly when the ranking keys agree with the totals. */
  lemma DomainListTrueExactlyWhen(t: DomainTable)
    ensures (forall list, n: nat :: DomainListing(t, list, n) ==> IsTopN(list, AllDomainRows(t), n, DomainTotal))
            <==> KeysAgree(t.traffic)
  {
    var rows := AllDomainRows(t);
    forall list, n: nat ensures DomainListing(t, list, n) <==> Cut(list, rows, n, DomainKeyOf) {
      RankedRowsAreCut(list, t.traffic, ToDomainRow(t), FromDomainRow, n, DomainRank, DomainKeyOf);
    }
    CutIsTopExactlyWhenKeyAgrees(rows, DomainKeyOf, DomainTotal);
    KeysAgreeOnRows(t.traffic, ToDomainRow(t), DomainKeyOf, DomainTotal);
  }

  lemma ProcessListingIsCutThenMerged(v: Counters, list: seq<ProcessSnapshot>, n: nat)
    ensures ProcessListing(v, list, n) <==>
            CutThenMerged(list, KnownProcessRows(v), Elems(UnattributedRows(v)), n, ProcessKeyOf, ProcessTotal)
  {
    var toRow, known, extra := ToProcessRow(v.processes), KnownProcessRows(v), UnattributedRows(v);
    forall top ensures
      RankedRows(top, v.processes.traffic, toRow, n, ProcessRank) <==> Cut(top, known, n, ProcessKeyOf)
    {
      RankedRowsAreCut(top, v.processes.traffic, toRow, FromProcessRow, n, ProcessRank, ProcessKeyOf);
    }
    if ProcessListing(v, list, n) {
      var top, merged :| RankedRows(top, v.processes.traffic, toRow, n, ProcessRank)
        && IsSorting(top + extra, merged, ProcessTotal) && list == Truncate(merged, n);
      var sorted :| Listing(sorted, known) && SortedDown(sorted, ProcessKeyOf) && top == Truncate(sorted, n);
      MergedLists(sorted, extra, merged, n);
      assert IsMerge(sorted, merged, known, Elems(extra), n, ProcessKeyOf, ProcessTotal);
    }
    if CutThenMerged(list, known, Elems(extra), n, ProcessKeyOf, ProcessTotal) {
      var sorted, merged :| IsMerge(sorted, merged, known, Elems(extra), n, ProcessKeyOf, ProcessTotal)
        && list == Truncate(merged, n);
      var top := Truncate(sorted, n);
      MergedRearranges(sorted, extra, merged, n);
      assert Cut(top, known, n, ProcessKeyOf);
    }
  }

  /**
   * Every process list a snapshot may show is a true top of all processes and the unattributed line
   * exactly when no process has more overtakers than there are unattributed lines.
   */
  lemma ProcessListTrueExactlyWhen(v: Counters)
    ensures (forall list, n: nat :: ProcessListing(v, list, n) ==> IsTopN(list, AllProcessRows(v), n, ProcessTotal))
            <==> ProcessesOutrank(v)
  {
    var known, extra := KnownProcessRows(v), Elems(UnattributedRows(v));
    forall list, n: nat
      ensures ProcessListing(v, list, n) <==> CutThenMerged(list, known, extra, n, ProcessKeyOf, ProcessTotal)
    {
      ProcessListingIsCutThenMerged(v, list, n);
    }
    MergeIsTopExactlyWhenFewOvertake(known, extra, ProcessKeyOf, ProcessTotal);
  }

  /** Whatever wraps, a process list draws distinct lines, and as many as there are up to `n`. */
  lemma ProcessListingDraws(v: Counters, list: seq<ProcessSnapshot>, n: nat)
    requires ProcessListing(v, list, n)
    ensures Drawn(list, AllProcessRows(v), n) && SortedDown(list, ProcessTotal)
  {
    ProcessListingIsCutThenMerged(v, list, n);
    CutThenMergedDraws(list, KnownProcessRows(v), Elems(UnattributedRows(v)), n, ProcessKeyOf, ProcessTotal);
  }

  lemma FittingKey(t: Traffic)
    requires t.recv + t.sent < TWO_TO_64
    ensures t.Total() == t.WrappingTotal()
  {
  }

  /** Totals that fit 64 bits have agreeing keys. */
  lemma FittingKeysAgree<K(!new)>(m: map<K, Traffic>)
    requires NoOverflow(m)
    ensures KeysAgree(m)
  {
    forall a, b | a in m && b in m && m[a].Total() > m[b].Total() ensures m[a].WrappingTotal() > m[b].WrappingTotal() {
      FittingKey(m[a]);
      FittingKey(m[b]);
    }
  }

  /** Agreeing keys suffice, and without an unattributed line nothing less does. */
  lemma AgreeingKeysOutrank(v: Counters)
    ensures KeysAgree(v.processes.traffic) ==> ProcessesOutrank(v)
    ensures UnattributedRows(v) == [] && ProcessesOutrank(v) ==> KeysAgree(v.processes.traffic)
  {
    AgreeingHasFewOvertakers(KnownProcessRows(v), Elems(UnattributedRows(v)), ProcessKeyOf, ProcessTotal);
    KeysAgreeOnRows(v.processes.traffic, ToProcessRow(v.processes), ProcessKeyOf, ProcessTotal);
  }

  // ----- How a list goes wrong -----

  /** A listing of two rows with the lower one first, cut to one. */
  lemma LowerRowAlone(v: Counters, a: ProcessKey, b: ProcessKey)
    requires a != b && v.processes.traffic.Keys == {a, b} && UnattributedRows(v) == []
    requires v.processes.traffic[a].WrappingTotal() >= v.processes.traffic[b].WrappingTotal()
    ensures ProcessListing(v, [ToProcessRow(v.processes)((a, v.processes.traffic[a]))], 1)
  {
    var m, toRow := v.processes.traffic, ToProcessRow(v.processes);
    var sorted := [(a, m[a]), (b, m[b])];
    var row := toRow(sorted[0]);
    assert RankedRows([row], m, toRow, 1, ProcessRank) by {
      assert Lists(sorted, m) && SortedDown(sorted, ProcessRank);
      assert Truncate(Mapped(sorted, toRow), 1) == [row];
    }
    assert [row] + UnattributedRows(v) == [row] && IsSorting([row], [row], ProcessTotal);
    assert Truncate([row], 1) == [row];
  }

  lemma HigherRowOmitted(v: Counters, a: ProcessKey, b: ProcessKey)
    requires a in v.processes.traffic && b in v.processes.traffic
    requires v.processes.traffic[a].Total() < v.processes.traffic[b].Total()
    ensures !IsTopN([ToProcessRow(v.processes)((a, v.processes.traffic[a]))], AllProcessRows(v), 1, ProcessTotal)
  {
    var toRow := ToProcessRow(v.processes);
    var listed, omitted := toRow((a, v.processes.traffic[a])), toRow((b, v.processes.traffic[b]));
    assert listed in [listed] && omitted in AllProcessRows(v) && omitted !in [listed];
  }
}
