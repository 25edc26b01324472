/** Publishing a snapshot: the ranked lists, the waiting bytes and the freshness of the process table together. */
module Publishing {
  import opened Net
  import opened Postings
  import opened Statistics
  import opened TopN
  import opened Accounting
  import LedgerLaws
  import L = Ledgers
  import A = Attribution
  import P = Pipelines

  function RowOf(p: ProcessSnapshot): Row {
    match p.identity
    case Attributed(pid, _, path) => Process(ProcessKey(pid, path))
    case NoProcess => Unattributed
  }

  function SumListed(ps: seq<ProcessSnapshot>): nat {
    if ps == [] then 0 else ps[0].traffic.recv + ps[0].traffic.sent + SumListed(ps[1..])
  }

  lemma {:induction false} ListedArePosted(v: Counters, log: seq<Posting>, ps: seq<ProcessSnapshot>)
    requires Represents(v, log)
    requires forall p :: p in ps ==> p in AllProcessRows(v)
    ensures SumListed(ps) ==
            SumCells(log, Mapped(ps, RowOf), Inbound) + SumCells(log, Mapped(ps, RowOf), Outbound)
  {
    if ps != [] {
      var p := ps[0];
      assert p in AllProcessRows(v);
      AmountIsPosted(v, log, RowOf(p), Inbound);
      AmountIsPosted(v, log, RowOf(p), Outbound);
      ListedArePosted(v, log, ps[1..]);
      assert Mapped(ps, RowOf)[1..] == Mapped(ps[1..], RowOf);
    }
  }

  lemma ListedRowsDiffer(v: Counters, ps: seq<ProcessSnapshot>, i: nat, j: nat)
    requires NoDup(ps) && i < j < |ps|
    requires forall p :: p in ps ==> p in AllProcessRows(v)
    ensures RowOf(ps[i]) != RowOf(ps[j])
  {
    assert ps[i] in AllProcessRows(v) && ps[j] in AllProcessRows(v);
  }

  lemma FullListListsAll<T>(list: seq<T>, rows: set<T>, n: nat)
    requires Drawn(list, rows, n) && |rows| <= n
    ensures Elems(list) == rows
  {
    NoDupSetSize(list);
    assert |rows - Elems(list)| == |rows| - |Elems(list)|;
  }

  /** A posting with bytes, to a process or unattributed, has a line among all lines. */
  lemma PostedBytesHaveALine(v: Counters, log: seq<Posting>, p: Posting)
    requires Represents(v, log) && p in log && p.bytes > 0
    requires p.row.Process? || p.row.Unattributed?
    ensures exists r :: r in AllProcessRows(v) && RowOf(r) == p.row
  {
    AmountIsPosted(v, log, p.row, p.direction);
    if p.row.Process? {
      var key := p.row.key;
      assert key in v.processes.traffic by {
        assert Cell(p.row, p.direction).Covers(p);
      }
      assert RowOf(ProcessRow(v.processes, (key, v.processes.traffic[key]))) == p.row;
    } else {
      CoveredBytes(log, Cell(Unattributed, p.direction), p);
      UnattributedWasSeen(v, log);
      assert UnattributedRows(v)[0] in AllProcessRows(v) && RowOf(UnattributedRows(v)[0]) == Unattributed;
    }
  }

  lemma {:induction false} CoveredBytes(log: seq<Posting>, scope: Scope, p: Posting)
    requires p in log && scope.Covers(p)
    ensures Bytes(log, scope) >= p.bytes
  {
    var last := log[|log| - 1];
    assert log == log[..|log| - 1] + [last];
    if p != last {
      CoveredBytes(log[..|log| - 1], scope, p);
    }
  }

  ghost predicate Attributes(row: Row) {
    row.Process? || row.Unattributed?
  }

  lemma ListedRowsAttribute(v: Counters, list: seq<ProcessSnapshot>, n: nat)
    requires Drawn(list, AllProcessRows(v), n)
    ensures forall p :: p in list ==> p in AllProcessRows(v)
    ensures NoDup(Mapped(list, RowOf))
    ensures forall row :: row in Mapped(list, RowOf) ==> Attributes(row)
  {
    var rows := Mapped(list, RowOf);
    assert forall p :: p in list ==> p in Elems(list);
    forall i, j | 0 <= i < j < |rows| ensures rows[i] != rows[j] {
      ListedRowsDiffer(v, list, i, j);
    }
  }

  lemma FullListHasLine(v: Counters, log: seq<Posting>, list: seq<ProcessSnapshot>, n: nat, p: Posting)
    requires Represents(v, log) && Drawn(list, AllProcessRows(v), n) && |AllProcessRows(v)| <= n
    requires p in log && p.bytes > 0 && Attributes(p.row)
    ensures p.row in Mapped(list, RowOf)
  {
    FullListListsAll(list, AllProcessRows(v), n);
    PostedBytesHaveALine(v, log, p);
    var r :| r in AllProcessRows(v) && RowOf(r) == p.row;
    assert r in Elems(list);
    var i :| 0 <= i < |list| && list[i] == r;
    assert Mapped(list, RowOf)[i] == p.row;
  }

  /** Of each direction, distinct listed lines hold at most all attribution bytes, and all when none was cut off. */
  lemma ListedCellsWithin(v: Counters, log: seq<Posting>, list: seq<ProcessSnapshot>, n: nat, d: Direction)
    requires Represents(v, log) && Drawn(list, AllProcessRows(v), n)
    ensures SumCells(log, Mapped(list, RowOf), d) <= Bytes(log, Scope.Attribution(d))
    ensures |AllProcessRows(v)| <= n ==> SumCells(log, Mapped(list, RowOf), d) == Bytes(log, Scope.Attribution(d))
  {
    ListedRowsAttribute(v, list, n);
    RowsAddUp(log, Mapped(list, RowOf), Scope.Attribution(d), d);
    if |AllProcessRows(v)| <= n {
      forall p | p in log && p.bytes > 0 && Attributes(p.row) ensures p.row in Mapped(list, RowOf) {
        FullListHasLine(v, log, list, n, p);
      }
    }
  }

  /** The listed lines hold at most all attribution bytes, and exactly all when none was cut off. */
  lemma ListedWithinAttribution(v: Counters, log: seq<Posting>, list: seq<ProcessSnapshot>, n: nat)
    requires Represents(v, log) && Drawn(list, AllProcessRows(v), n)
    ensures SumListed(list) <= Bytes(log, Scope.Attribution(Inbound)) + Bytes(log, Scope.Attribution(Outbound))
    ensures |AllProcessRows(v)| <= n ==>
              SumListed(list) == Bytes(log, Scope.Attribution(Inbound)) + Bytes(log, Scope.Attribution(Outbound))
  {
    ListedRowsAttribute(v, list, n);
    ListedArePosted(v, log, list);
    ListedCellsWithin(v, log, list, n, Inbound);
    ListedCellsWithin(v, log, list, n, Outbound);
  }

  ghost function WaitingBytes(lim: L.Limits, calls: seq<L.Call>): nat {
    L.Queued(L.Run(lim, calls).queue, LedgerLaws.BytesIn(Inbound))
    + L.Queued(L.Run(lim, calls).queue, LedgerLaws.BytesIn(Outbound))
  }

  /**
   * Listed and waiting bytes stay within the interface totals, and reach them when no line is cut
   * off, for any distinct lines listed: even overflowing ranking keys cannot unbalance a snapshot.
   */
  lemma SnapshotBalances(v: Counters, lim: L.Limits, calls: seq<L.Call>, list: seq<ProcessSnapshot>, n: nat)
    requires CountersOf(v, lim, calls) && LedgerLaws.AllWellFormed(L.Run(lim, calls).entries)
    requires Drawn(list, AllProcessRows(v), n)
    ensures SumListed(list) + WaitingBytes(lim, calls) <= v.inBytes + v.outBytes
    ensures |AllProcessRows(v)| <= n ==> SumListed(list) + WaitingBytes(lim, calls) == v.inBytes + v.outBytes
  {
    ListedWithinAttribution(v, PostAll(L.Run(lim, calls).entries), list, n);
    RunTotals(lim, calls, Inbound);
    RunTotals(lim, calls, Outbound);
  }

  /** `s` shows the totals and waiting bytes that a run leaves, and up to `n` of its `lines` process lines. */
  ghost predicate Shows(s: TrafficSnapshot, lim: L.Limits, calls: seq<L.Call>, lines: nat, n: nat) {
    exists v ::
      && CountersOf(v, lim, calls)
      && s.inBytes == v.inBytes && s.outBytes == v.outBytes
      && Drawn(s.processes, AllProcessRows(v), n) && |AllProcessRows(v)| == lines
      && s.pendingAttributionBytes == WaitingBytes(lim, calls)
  }

  /** Below 2^64 bytes in all, whatever may be listed is the true top. */
  lemma FittingListsAreTrue(
    v: Counters, lim: L.Limits, calls: seq<L.Call>,
    processes: seq<ProcessSnapshot>, domains: seq<DomainSnapshot>, n: nat)
    requires CountersOf(v, lim, calls) && LedgerLaws.AllWellFormed(L.Run(lim, calls).entries)
    requires v.inBytes + v.outBytes < 0x1_0000_0000_0000_0000
    requires ProcessListing(v, processes, n) && DomainListing(v.domains, domains, n)
    ensures IsTopN(processes, AllProcessRows(v), n, ProcessTotal)
    ensures IsTopN(domains, AllDomainRows(v.domains), n, DomainTotal)
  {
    NoCounterOverflows(v, lim, calls);
    FittingKeysAgree(v.processes.traffic);
    FittingKeysAgree(v.domains.traffic);
    AgreeingKeysOutrank(v);
    ProcessListTrueExactlyWhen(v);
    DomainListTrueExactlyWhen(v.domains);
  }

  lemma LinesFit(v: Counters, lim: L.Limits, calls: seq<L.Call>)
    requires CountersOf(v, lim, calls) && LedgerLaws.AllWellFormed(L.Run(lim, calls).entries)
    requires v.inBytes + v.outBytes < TWO_TO_64
    ensures NoOverflow(v.processes.traffic) && NoOverflow(v.domains.traffic)
    ensures v.unattributed.recv + v.unattributed.sent < TWO_TO_64
  {
    NoCounterOverflows(v, lim, calls);
    assert Amount(v, Unattributed, Inbound) + Amount(v, Unattributed, Outbound) < TWO_TO_64;
  }

  /** Such a process list puts no line before one with more bytes, both ways together, nor leaves one out for it. */
  lemma FittingProcessesRankBytes(
    v: Counters, lim: L.Limits, calls: seq<L.Call>, processes: seq<ProcessSnapshot>, n: nat)
    requires CountersOf(v, lim, calls) && LedgerLaws.AllWellFormed(L.Run(lim, calls).entries)
    requires v.inBytes + v.outBytes < 0x1_0000_0000_0000_0000
    requires ProcessListing(v, processes, n)
    ensures forall i, j :: 0 <= i < j < |processes| ==>
              processes[j].traffic.recv + processes[j].traffic.sent <=
              processes[i].traffic.recv + processes[i].traffic.sent
    ensures forall x, y :: x in processes && y in AllProcessRows(v) && y !in processes ==>
              y.traffic.recv + y.traffic.sent <= x.traffic.recv + x.traffic.sent
  {
    LinesFit(v, lim, calls);
    FittingKeysAgree(v.processes.traffic);
    AgreeingKeysOutrank(v);
    ProcessListTrueExactlyWhen(v);
    ProcessBytesRanked(v, processes, n);
  }

  /** And so for a domain list. */
  lemma FittingDomainsRankBytes(
    v: Counters, lim: L.Limits, calls: seq<L.Call>, domains: seq<DomainSnapshot>, n: nat)
    requires CountersOf(v, lim, calls) && LedgerLaws.AllWellFormed(L.Run(lim, calls).entries)
    requires v.inBytes + v.outBytes < 0x1_0000_0000_0000_0000
    requires DomainListing(v.domains, domains, n)
    ensures forall i, j :: 0 <= i < j < |domains| ==>
              domains[j].traffic.recv + domains[j].traffic.sent <= domains[i].traffic.recv + domains[i].traffic.sent
    ensures forall x, y :: x in domains && y in AllDomainRows(v.domains) && y !in domains ==>
              y.traffic.recv + y.traffic.sent <= x.traffic.recv + x.traffic.sent
  {
    LinesFit(v, lim, calls);
    FittingKeysAgree(v.domains.traffic);
    DomainListTrueExactlyWhen(v.domains);
    DomainBytesRanked(v.domains, domains, n);
  }

  lemma ProcessBytesRanked(v: Counters, processes: seq<ProcessSnapshot>, n: nat)
    requires IsTopN(processes, AllProcessRows(v), n, ProcessTotal) && NoOverflow(v.processes.traffic)
    requires v.unattributed.recv + v.unattributed.sent < TWO_TO_64
    ensures forall i, j :: 0 <= i < j < |processes| ==>
              processes[j].traffic.recv + processes[j].traffic.sent <=
              processes[i].traffic.recv + processes[i].traffic.sent
    ensures forall x, y :: x in processes && y in AllProcessRows(v) && y !in processes ==>
              y.traffic.recv + y.traffic.sent <= x.traffic.recv + x.traffic.sent
  {
    forall i, j | 0 <= i < j < |processes|
      ensures processes[j].traffic.recv + processes[j].traffic.sent
              <= processes[i].traffic.recv + processes[i].traffic.sent
    {
      assert processes[i] in Elems(processes) && processes[j] in Elems(processes);
      ProcessRowFits(v, processes[i]);
      ProcessRowFits(v, processes[j]);
    }
    forall x, y | x in processes && y in AllProcessRows(v) && y !in processes
      ensures y.traffic.recv + y.traffic.sent <= x.traffic.recv + x.traffic.sent
    {
      assert x in Elems(processes);
      ProcessRowFits(v, x);
      ProcessRowFits(v, y);
    }
  }

  lemma DomainBytesRanked(t: DomainTable, domains: seq<DomainSnapshot>, n: nat)
    requires IsTopN(domains, AllDomainRows(t), n, DomainTotal) && NoOverflow(t.traffic)
    ensures forall i, j :: 0 <= i < j < |domains| ==>
              domains[j].traffic.recv + domains[j].traffic.sent <= domains[i].traffic.recv + domains[i].traffic.sent
    ensures forall x, y :: x in domains && y in AllDomainRows(t) && y !in domains ==>
              y.traffic.recv + y.traffic.sent <= x.traffic.recv + x.traffic.sent
  {
    forall i, j | 0 <= i < j < |domains|
      ensures domains[j].traffic.recv + domains[j].traffic.sent <= domains[i].traffic.recv + domains[i].traffic.sent
    {
      assert domains[i] in Elems(domains) && domains[j] in Elems(domains);
      DomainRowFits(t, domains[i]);
      DomainRowFits(t, domains[j]);
    }
    forall x, y | x in domains && y in AllDomainRows(t) && y !in domains
      ensures y.traffic.recv + y.traffic.sent <= x.traffic.recv + x.traffic.sent
    {
      assert x in Elems(domains);
      DomainRowFits(t, x);
      DomainRowFits(t, y);
    }
  }

  lemma ProcessRowFits(v: Counters, x: ProcessSnapshot)
    requires x in AllProcessRows(v) && NoOverflow(v.processes.traffic)
    requires v.unattributed.recv + v.unattributed.sent < TWO_TO_64
    ensures ProcessTotal(x) == x.traffic.recv + x.traffic.sent
  {
  }

  lemma DomainRowFits(t: DomainTable, x: DomainSnapshot)
    requires x in AllDomainRows(t) && NoOverflow(t.traffic)
    ensures DomainTotal(x) == x.traffic.recv + x.traffic.sent
  {
  }

  /**
   * Publishes what the attributor and the statistics hold after `calls`. Below 2^64 bytes in all,
   * the process and domain lists are the true tops.
   */
  method SnapshotForPublish(
    stats: Stats, attributor: A.PendingAttributor, read: L.TableRead, n: nat, ghost calls: seq<L.Call>)
    returns (s: TrafficSnapshot)
    requires attributor.Books(stats)
    requires attributor.ledger == L.Run(attributor.Lim(), calls)
    requires LedgerLaws.AllWellFormed(attributor.ledger.entries)
    ensures Shows(s, attributor.Lim(), calls, |AllProcessRows(stats.View())|, n)
    ensures s.inBytes == stats.inBytes && s.outBytes == stats.outBytes
    ensures s.processDataFresh <==> read.Read? && read.table.IsFreshAt(read.at)
    ensures s.inBytes + s.outBytes < TWO_TO_64 ==>
              && IsTopN(s.processes, AllProcessRows(stats.View()), n, ProcessTotal)
              && IsTopN(s.outboundDomains, AllDomainRows(stats.View().domains), n, DomainTotal)
    ensures SumListed(s.processes) + s.pendingAttributionBytes <= s.inBytes + s.outBytes
    ensures |AllProcessRows(stats.View())| <= n ==>
              SumListed(s.processes) + s.pendingAttributionBytes == s.inBytes + s.outBytes
  {
    ghost var v, lim := stats.View(), attributor.Lim();
    assert CountersOf(v, lim, calls);
    var records, pendingBytes := attributor.Snapshot();
    assert pendingBytes == WaitingBytes(lim, calls);
    s := stats.Snapshot(n);
    s := s.(pendingAttributionBytes := pendingBytes, processDataFresh := read.Read? && read.table.IsFreshAt(read.at));
    PublishedIsShown(v, lim, calls, s, n);
  }

  lemma PublishedIsShown(v: Counters, lim: L.Limits, calls: seq<L.Call>, s: TrafficSnapshot, n: nat)
    requires CountersOf(v, lim, calls) && LedgerLaws.AllWellFormed(L.Run(lim, calls).entries)
    requires s.inBytes == v.inBytes && s.outBytes == v.outBytes
    requires ProcessListing(v, s.processes, n) && DomainListing(v.domains, s.outboundDomains, n)
    requires s.pendingAttributionBytes == WaitingBytes(lim, calls)
    ensures Shows(s, lim, calls, |AllProcessRows(v)|, n)
    ensures s.inBytes + s.outBytes < TWO_TO_64 ==>
              && IsTopN(s.processes, AllProcessRows(v), n, ProcessTotal)
              && IsTopN(s.outboundDomains, AllDomainRows(v.domains), n, DomainTotal)
    ensures SumListed(s.processes) + s.pendingAttributionBytes <= s.inBytes + s.outBytes
    ensures |AllProcessRows(v)| <= n ==>
              SumListed(s.processes) + s.pendingAttributionBytes == s.inBytes + s.outBytes
  {
    ProcessListingDraws(v, s.processes, n);
    SnapshotBalances(v, lim, calls, s.processes, n);
    if s.inBytes + s.outBytes < TWO_TO_64 {
      FittingListsAreTrue(v, lim, calls, s.processes, s.outboundDomains, n);
    }
  }

  // ----- The snapshots a pipeline delivers -----

  lemma InterfaceTotalIsMoved(v: Counters, lim: L.Limits, calls: seq<L.Call>, d: Direction)
    requires CountersOf(v, lim, calls)
    ensures InterfaceTotal(v, d) == LedgerLaws.Moved(L.Run(lim, calls).entries, d)
  {
    LedgerLaws.RunShape(lim, calls);
    PostedTotals(L.Run(lim, calls).entries, d);
  }

  lemma ShownBalances(s: TrafficSnapshot, lim: L.Limits, calls: seq<L.Call>, lines: nat, n: nat)
    requires Shows(s, lim, calls, lines, n) && LedgerLaws.AllWellFormed(L.Run(lim, calls).entries)
    ensures lim == P.LIMITS ==> s.inBytes == P.Totals(calls, Inbound) && s.outBytes == P.Totals(calls, Outbound)
    ensures s.pendingAttributionBytes == WaitingBytes(lim, calls)
    ensures SumListed(s.processes) + s.pendingAttributionBytes <= s.inBytes + s.outBytes
    ensures |s.processes| == Min(n, lines)
    ensures lines <= n ==> SumListed(s.processes) + s.pendingAttributionBytes == s.inBytes + s.outBytes
  {
    var v :| CountersOf(v, lim, calls)
      && s.inBytes == v.inBytes && s.outBytes == v.outBytes
      && Drawn(s.processes, AllProcessRows(v), n) && |AllProcessRows(v)| == lines
      && s.pendingAttributionBytes == WaitingBytes(lim, calls);
    InterfaceTotalIsMoved(v, lim, calls, Inbound);
    InterfaceTotalIsMoved(v, lim, calls, Outbound);
    SnapshotBalances(v, lim, calls, s.processes, n);
  }

  /**
   * In every interleaving, the snapshots that the owner of a pipeline gets have interface totals
   * that never fall, and each lists, with its waiting bytes, at most its totals; and exactly them
   * when no process line was cut off, as whenever the list is not full.
   */
  lemma DeliveredSnapshotsBalance(
    run: seq<P.State>, i: nat, a: nat, b: nat, earlier: TrafficSnapshot, later: TrafficSnapshot,
    linesBefore: nat, lines: nat, n: nat)
    requires P.IsRun(run) && i < |run| && a <= b < |run[i].own.delivered|
    requires Shows(earlier, P.LIMITS, run[i].own.delivered[a].calls, linesBefore, n)
    requires Shows(later, P.LIMITS, run[i].own.delivered[b].calls, lines, n)
    ensures earlier.inBytes <= later.inBytes && earlier.outBytes <= later.outBytes
    ensures later.pendingAttributionBytes == run[i].own.delivered[b].pendingBytes
    ensures SumListed(later.processes) + later.pendingAttributionBytes <= later.inBytes + later.outBytes
    ensures |later.processes| == Min(n, lines)
    ensures lines <= n ==>
              SumListed(later.processes) + later.pendingAttributionBytes == later.inBytes + later.outBytes
  {
    var first, last := run[i].own.delivered[a].calls, run[i].own.delivered[b].calls;
    P.DeliveredTotals(run, i, a, b);
    ShownInOrder(first, last, earlier, later, linesBefore, lines, n);
  }

  lemma ShownInOrder(
    first: seq<L.Call>, last: seq<L.Call>, earlier: TrafficSnapshot, later: TrafficSnapshot,
    linesBefore: nat, lines: nat, n: nat)
    requires P.Totals(first, Inbound) <= P.Totals(last, Inbound)
    requires P.Totals(first, Outbound) <= P.Totals(last, Outbound)
    requires LedgerLaws.AllWellFormed(L.Run(P.LIMITS, first).entries)
    requires LedgerLaws.AllWellFormed(L.Run(P.LIMITS, last).entries)
    requires Shows(earlier, P.LIMITS, first, linesBefore, n) && Shows(later, P.LIMITS, last, lines, n)
    ensures earlier.inBytes <= later.inBytes && earlier.outBytes <= later.outBytes
    ensures later.pendingAttributionBytes == WaitingBytes(P.LIMITS, last)
    ensures SumListed(later.processes) + later.pendingAttributionBytes <= later.inBytes + later.outBytes
    ensures |later.processes| == Min(n, lines)
    ensures lines <= n ==>
              SumListed(later.processes) + later.pendingAttributionBytes == later.inBytes + later.outBytes
  {
    ShownBalances(earlier, P.LIMITS, first, linesBefore, n);
    ShownBalances(later, P.LIMITS, last, lines, n);
  }
}
