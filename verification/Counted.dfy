/** What the counters, and every line of a snapshot, say of the traffic of a run. */
module Counted {
  import opened Net
  import opened Postings
  import opened Statistics
  import opened TopN
  import opened Accounting
  import opened LedgerLaws
  import opened Packets
  import L = Ledgers

  // ----- The traffic itself: flows that crossed the interface, and decisions -----

  /** Bytes that one entry credits to the process of this pid and path. */
  ghost function CreditIn(e: L.Entry, pid: U32, path: Option<string>, d: Direction): nat {
    if e.Decision? && e.process.Some? && e.process.value.pid == pid && e.process.value.path == path
    then L.Weigh(e.group, BytesIn(d)) else 0
  }

  ghost function GivenUpIn(e: L.Entry, d: Direction): nat {
    if e.Decision? && e.process.None? then L.Weigh(e.group, BytesIn(d)) else 0
  }

  /** The remote address that a flow counts for in this direction, if it counts there at all. */
  function RemoteOf(f: Flow, d: Direction): Option<IpAddr> {
    if f.peerLocalSocket.None? then if f.direction == d then Some(f.peer) else None
    else if d == Outbound || f.localSocket.None? then Some(f.peer)
    else Some(f.localSocket.value.ip)
  }

  ghost function CrossingIn(e: L.Entry, ip: IpAddr, d: Direction): nat {
    if e.Traffic? && RemoteOf(e.flow, d) == Some(ip) then e.flow.bytes else 0
  }

  ghost function NamedIn(e: L.Entry, host: string, d: Direction): nat {
    if e.Traffic? && e.flow.domain == Some(host) && e.flow.direction == d then e.flow.bytes else 0
  }

  ghost function Sum(entries: seq<L.Entry>, of: L.Entry -> nat): nat {
    if entries == [] then 0 else Sum(entries[..|entries| - 1], of) + of(entries[|entries| - 1])
  }

  ghost function Credit(pid: U32, path: Option<string>, d: Direction): L.Entry -> nat {
    (e: L.Entry) => CreditIn(e, pid, path, d)
  }

  ghost function GivenUp(d: Direction): L.Entry -> nat {
    (e: L.Entry) => GivenUpIn(e, d)
  }

  ghost function Crossing(ip: IpAddr, d: Direction): L.Entry -> nat {
    (e: L.Entry) => CrossingIn(e, ip, d)
  }

  ghost function Named(host: string, d: Direction): L.Entry -> nat {
    (e: L.Entry) => NamedIn(e, host, d)
  }

  /** The time of the last entry that says something, under `at`. */
  ghost function Last(entries: seq<L.Entry>, at: L.Entry -> Option<Time>): Option<Time> {
    if entries == [] then None
    else if at(entries[|entries| - 1]).Some? then at(entries[|entries| - 1])
    else Last(entries[..|entries| - 1], at)
  }

  /** A decision speaks with the time of its group's last observation. */
  function DecidedAt(e: L.Entry): Option<Time> {
    if e.Decision? && e.group != [] then Some(e.group[|e.group| - 1].at) else None
  }

  ghost function CreditTime(pid: U32, path: Option<string>): L.Entry -> Option<Time> {
    (e: L.Entry) =>
      if e.Decision? && e.process.Some? && e.process.value.pid == pid && e.process.value.path == path
      then DecidedAt(e) else None
  }

  ghost function GivenUpTime(): L.Entry -> Option<Time> {
    (e: L.Entry) => if e.Decision? && e.process.None? then DecidedAt(e) else None
  }

  ghost function CrossingTime(ip: IpAddr, d: Direction): L.Entry -> Option<Time> {
    (e: L.Entry) => if e.Traffic? && RemoteOf(e.flow, d) == Some(ip) then Some(e.at) else None
  }

  ghost function NamedTime(host: string): L.Entry -> Option<Time> {
    (e: L.Entry) => if e.Traffic? && e.flow.domain == Some(host) then Some(e.at) else None
  }

  /** The name that an entry brings for the process of this pid and path. */
  function NameIn(e: L.Entry, pid: U32, path: Option<string>): Option<string> {
    if e.Decision? && e.process.Some? && e.process.value.pid == pid && e.process.value.path == path
    then e.process.value.name else None
  }

  /** The first name that came with a credit to the process of this pid and path. */
  ghost function FirstNameOf(entries: seq<L.Entry>, pid: U32, path: Option<string>): Option<string> {
    if entries == [] then None
    else
      var e, earlier := entries[|entries| - 1], FirstNameOf(entries[..|entries| - 1], pid, path);
      if earlier.None? then NameIn(e, pid, path) else earlier
  }

  // ----- Each entry posts just that -----

  /** What an entry's postings hold under a scope. */
  lemma EntryPosts(e: L.Entry, pid: U32, path: Option<string>, ip: IpAddr, host: string, d: Direction)
    requires e.Decision? ==> Uniform(e.group)
    ensures var posted := EntryPostings(e);
            && Bytes(posted, Cell(Process(ProcessKey(pid, path)), d)) == CreditIn(e, pid, path, d)
            && Bytes(posted, Cell(Unattributed, d)) == GivenUpIn(e, d)
            && Bytes(posted, Cell(Remote(ip), d)) == CrossingIn(e, ip, d)
            && Bytes(posted, Cell(Domain(host), d)) == NamedIn(e, host, d)
  {
    match e
    case Decision(process, group) =>
      var p := DecisionPosting(process, group);
      UniformWeight(group, DirectionOf(group), d);
      OnePosting(p, Cell(Process(ProcessKey(pid, path)), d));
      OnePosting(p, Cell(Unattributed, d));
      OnePosting(p, Cell(Remote(ip), d));
      OnePosting(p, Cell(Domain(host), d));
    case Traffic(flow, at, _) =>
      FlowPosts(flow, at, Cell(Process(ProcessKey(pid, path)), d));
      FlowPosts(flow, at, Cell(Unattributed, d));
      FlowPosts(flow, at, Cell(Remote(ip), d));
      FlowPosts(flow, at, Cell(Domain(host), d));
  }

  lemma FewLines(lines: seq<Posting>, scope: Scope)
    requires |lines| <= 2
    ensures Bytes(lines, scope) == (if |lines| > 0 && scope.Covers(lines[0]) then lines[0].bytes else 0)
                                   + (if |lines| > 1 && scope.Covers(lines[1]) then lines[1].bytes else 0)
  {
    if |lines| == 2 {
      assert lines == [lines[0]] + [lines[1]];
      BytesAppend([lines[0]], [lines[1]], scope);
      OnePosting(lines[0], scope);
      OnePosting(lines[1], scope);
    } else if |lines| == 1 {
      assert lines == [lines[0]];
      OnePosting(lines[0], scope);
    }
  }

  lemma FlowPosts(flow: Flow, at: Time, scope: Scope)
    ensures var lines, names := InterfacePostings(flow, at),
                                DomainPostings(flow.domain, flow.direction, flow.bytes, at);
            Bytes(FlowPostings(flow, at), scope) ==
              (if scope.Covers(lines[0]) then lines[0].bytes else 0)
              + (if |lines| == 2 && scope.Covers(lines[1]) then lines[1].bytes else 0)
              + (if names != [] && scope.Covers(names[0]) then names[0].bytes else 0)
  {
    var lines, names := InterfacePostings(flow, at), DomainPostings(flow.domain, flow.direction, flow.bytes, at);
    BytesAppend(lines, names, scope);
    FewLines(lines, scope);
    FewLines(names, scope);
  }

  lemma {:induction false} PostedSums(entries: seq<L.Entry>, scope: Scope, of: L.Entry -> nat)
    requires forall e :: e in entries ==> Bytes(EntryPostings(e), scope) == of(e)
    ensures Bytes(PostAll(entries), scope) == Sum(entries, of)
  {
    if entries != [] {
      var init, e := entries[..|entries| - 1], entries[|entries| - 1];
      assert e in entries;
      PostedSums(init, scope, of);
      BytesAppend(PostAll(init), EntryPostings(e), scope);
    }
  }

  lemma PostedIsTraffic(
    entries: seq<L.Entry>, pid: U32, path: Option<string>, ip: IpAddr, host: string, d: Direction)
    requires DecisionsUniform(entries)
    ensures var log := PostAll(entries);
            && Bytes(log, Cell(Process(ProcessKey(pid, path)), d)) == Sum(entries, Credit(pid, path, d))
            && Bytes(log, Cell(Unattributed, d)) == Sum(entries, GivenUp(d))
            && Bytes(log, Cell(Remote(ip), d)) == Sum(entries, Crossing(ip, d))
            && Bytes(log, Cell(Domain(host), d)) == Sum(entries, Named(host, d))
  {
    forall e | e in entries
      ensures Bytes(EntryPostings(e), Cell(Process(ProcessKey(pid, path)), d)) == Credit(pid, path, d)(e)
      ensures Bytes(EntryPostings(e), Cell(Unattributed, d)) == GivenUp(d)(e)
      ensures Bytes(EntryPostings(e), Cell(Remote(ip), d)) == Crossing(ip, d)(e)
      ensures Bytes(EntryPostings(e), Cell(Domain(host), d)) == Named(host, d)(e)
    {
      EntryPosts(e, pid, path, ip, host, d);
    }
    PostedSums(entries, Cell(Process(ProcessKey(pid, path)), d), Credit(pid, path, d));
    PostedSums(entries, Cell(Unattributed, d), GivenUp(d));
    PostedSums(entries, Cell(Remote(ip), d), Crossing(ip, d));
    PostedSums(entries, Cell(Domain(host), d), Named(host, d));
  }

  /**
   * After any calls, each counter is the sum of what it stands for: a process holds what was decided for
   * its pid and path, the unattributed line what was given up, an address the flows to or from it, and a
   * domain the flows that named it, each in its own direction.
   */
  lemma CountersAreTheTraffic(
    v: Counters, lim: L.Limits, calls: seq<L.Call>,
    pid: U32, path: Option<string>, ip: IpAddr, host: string, d: Direction)
    requires CountersOf(v, lim, calls)
    ensures var entries := L.Run(lim, calls).entries;
            && Amount(v, Process(ProcessKey(pid, path)), d) == Sum(entries, Credit(pid, path, d))
            && Amount(v, Unattributed, d) == Sum(entries, GivenUp(d))
            && Amount(v, Remote(ip), d) == Sum(entries, Crossing(ip, d))
            && Amount(v, Domain(host), d) == Sum(entries, Named(host, d))
  {
    var entries := L.Run(lim, calls).entries;
    RunShape(lim, calls);
    PostedIsTraffic(entries, pid, path, ip, host, d);
    AmountIsPosted(v, PostAll(entries), Process(ProcessKey(pid, path)), d);
    AmountIsPosted(v, PostAll(entries), Unattributed, d);
    AmountIsPosted(v, PostAll(entries), Remote(ip), d);
    AmountIsPosted(v, PostAll(entries), Domain(host), d);
  }

  // ----- Times and names -----

  lemma {:induction false} SeenAppend(log: seq<Posting>, more: seq<Posting>, scope: Scope)
    ensures LastSeen(log + more, scope) ==
            if LastSeen(more, scope).Some? then LastSeen(more, scope) else LastSeen(log, scope)
  {
    if more == [] {
      assert log + more == log;
    } else {
      var init := more[..|more| - 1];
      assert (log + more)[..|log + more| - 1] == log + init;
      SeenAppend(log, init, scope);
    }
  }

  lemma OneSeen(p: Posting, scope: Scope)
    ensures LastSeen([p], scope) == if scope.Covers(p) then Some(p.at) else None
  {
    assert [p][..0] == [];
  }

  lemma FewSeen(lines: seq<Posting>, scope: Scope, at: Time)
    requires |lines| <= 2 && forall p :: p in lines ==> p.at == at
    ensures LastSeen(lines, scope) ==
            if (|lines| > 0 && scope.Covers(lines[0])) || (|lines| > 1 && scope.Covers(lines[1]))
            then Some(at) else None
  {
    if |lines| == 2 {
      assert lines == [lines[0]] + [lines[1]];
      SeenAppend([lines[0]], [lines[1]], scope);
      OneSeen(lines[0], scope);
      OneSeen(lines[1], scope);
    } else if |lines| == 1 {
      assert lines == [lines[0]];
      OneSeen(lines[0], scope);
    }
  }

  lemma FlowSeen(flow: Flow, at: Time, scope: Scope)
    ensures var lines, names := InterfacePostings(flow, at),
                                DomainPostings(flow.domain, flow.direction, flow.bytes, at);
            LastSeen(FlowPostings(flow, at), scope) ==
              if scope.Covers(lines[0]) || (|lines| == 2 && scope.Covers(lines[1]))
                 || (names != [] && scope.Covers(names[0])) then Some(at) else None
  {
    var lines, names := InterfacePostings(flow, at), DomainPostings(flow.domain, flow.direction, flow.bytes, at);
    SeenAppend(lines, names, scope);
    FewSeen(lines, scope, at);
    FewSeen(names, scope, at);
  }

  lemma DecisionSeen(process: Option<ObservedProcess>, group: L.Group, scope: Scope)
    requires group != []
    ensures LastSeen([DecisionPosting(process, group)], scope) ==
            if scope.Covers(DecisionPosting(process, group)) then Some(group[|group| - 1].at) else None
  {
    OneSeen(DecisionPosting(process, group), scope);
  }

  lemma EntrySeen(e: L.Entry, pid: U32, path: Option<string>, ip: IpAddr, host: string, d: Direction)
    requires e.Decision? ==> Uniform(e.group)
    ensures var posted := EntryPostings(e);
            && LastSeen(posted, Whole(Process(ProcessKey(pid, path)))) == CreditTime(pid, path)(e)
            && LastSeen(posted, Whole(Unattributed)) == GivenUpTime()(e)
            && LastSeen(posted, Cell(Remote(ip), d)) == CrossingTime(ip, d)(e)
            && LastSeen(posted, Whole(Domain(host))) == NamedTime(host)(e)
  {
    match e
    case Decision(process, group) =>
      DecisionSeen(process, group, Whole(Process(ProcessKey(pid, path))));
      DecisionSeen(process, group, Whole(Unattributed));
      DecisionSeen(process, group, Cell(Remote(ip), d));
      DecisionSeen(process, group, Whole(Domain(host)));
    case Traffic(flow, at, _) =>
      FlowSeen(flow, at, Whole(Process(ProcessKey(pid, path))));
      FlowSeen(flow, at, Whole(Unattributed));
      FlowSeen(flow, at, Cell(Remote(ip), d));
      FlowSeen(flow, at, Whole(Domain(host)));
  }

  lemma {:induction false} PostedLast(entries: seq<L.Entry>, scope: Scope, at: L.Entry -> Option<Time>)
    requires forall e :: e in entries ==> LastSeen(EntryPostings(e), scope) == at(e)
    ensures LastSeen(PostAll(entries), scope) == Last(entries, at)
  {
    if entries != [] {
      var init, e := entries[..|entries| - 1], entries[|entries| - 1];
      assert e in entries;
      PostedLast(init, scope, at);
      SeenAppend(PostAll(init), EntryPostings(e), scope);
    }
  }

  lemma SeenInTraffic(
    entries: seq<L.Entry>, pid: U32, path: Option<string>, ip: IpAddr, host: string, d: Direction)
    requires DecisionsUniform(entries)
    ensures var log := PostAll(entries);
            && LastSeen(log, Whole(Process(ProcessKey(pid, path)))) == Last(entries, CreditTime(pid, path))
            && LastSeen(log, Whole(Unattributed)) == Last(entries, GivenUpTime())
            && LastSeen(log, Cell(Remote(ip), d)) == Last(entries, CrossingTime(ip, d))
            && LastSeen(log, Whole(Domain(host))) == Last(entries, NamedTime(host))
  {
    forall e | e in entries
      ensures LastSeen(EntryPostings(e), Whole(Process(ProcessKey(pid, path)))) == CreditTime(pid, path)(e)
      ensures LastSeen(EntryPostings(e), Whole(Unattributed)) == GivenUpTime()(e)
      ensures LastSeen(EntryPostings(e), Cell(Remote(ip), d)) == CrossingTime(ip, d)(e)
      ensures LastSeen(EntryPostings(e), Whole(Domain(host))) == NamedTime(host)(e)
    {
      EntrySeen(e, pid, path, ip, host, d);
    }
    PostedLast(entries, Whole(Process(ProcessKey(pid, path))), CreditTime(pid, path));
    PostedLast(entries, Whole(Unattributed), GivenUpTime());
    PostedLast(entries, Cell(Remote(ip), d), CrossingTime(ip, d));
    PostedLast(entries, Whole(Domain(host)), NamedTime(host));
  }

  lemma {:induction false} NameAppend(log: seq<Posting>, more: seq<Posting>, key: ProcessKey)
    ensures FirstName(log + more, key) ==
            if FirstName(log, key).Some? then FirstName(log, key) else FirstName(more, key)
  {
    if more == [] {
      assert log + more == log;
    } else {
      var init := more[..|more| - 1];
      assert (log + more)[..|log + more| - 1] == log + init;
      NameAppend(log, init, key);
    }
  }

  lemma {:induction false} NamesNobody(log: seq<Posting>, key: ProcessKey)
    requires forall p :: p in log ==> p.row != Process(key)
    ensures FirstName(log, key) == None
  {
    if log != [] {
      assert log == log[..|log| - 1] + [log[|log| - 1]];
      NamesNobody(log[..|log| - 1], key);
    }
  }

  lemma EntryNames(e: L.Entry, pid: U32, path: Option<string>)
    ensures FirstName(EntryPostings(e), ProcessKey(pid, path)) == NameIn(e, pid, path)
  {
    if e.Traffic? {
      NamesNobody(EntryPostings(e), ProcessKey(pid, path));
    } else {
      var p := DecisionPosting(e.process, e.group);
      assert [p][..0] == [];
    }
  }

  lemma {:induction false} NamedInTraffic(entries: seq<L.Entry>, pid: U32, path: Option<string>)
    ensures FirstName(PostAll(entries), ProcessKey(pid, path)) == FirstNameOf(entries, pid, path)
  {
    if entries != [] {
      var init, e := entries[..|entries| - 1], entries[|entries| - 1];
      NamedInTraffic(init, pid, path);
      EntryNames(e, pid, path);
      NameAppend(PostAll(init), EntryPostings(e), ProcessKey(pid, path));
    }
  }

  // ----- Every line of a snapshot -----

  /**
   * A process line tells the bytes decided for its pid and path in each direction, the first name that
   * came with them, and the time of the last observation decided last; the unattributed line likewise.
   */
  lemma ProcessLinesTellTheTraffic(
    v: Counters, lim: L.Limits, calls: seq<L.Call>, list: seq<ProcessSnapshot>, n: nat, line: ProcessSnapshot)
    requires CountersOf(v, lim, calls) && ProcessListing(v, list, n) && line in list
    ensures var entries := L.Run(lim, calls).entries;
            var id := line.identity;
            && (id.Attributed? ==>
                  && line.traffic.recv == Sum(entries, Credit(id.pid, id.path, Inbound))
                  && line.traffic.sent == Sum(entries, Credit(id.pid, id.path, Outbound))
                  && id.name == FirstNameOf(entries, id.pid, id.path)
                  && Some(line.lastSeen) == Last(entries, CreditTime(id.pid, id.path)))
            && (id.NoProcess? ==>
                  && line.traffic.recv == Sum(entries, GivenUp(Inbound))
                  && line.traffic.sent == Sum(entries, GivenUp(Outbound))
                  && Some(line.lastSeen) == Last(entries, GivenUpTime()))
  {
    var entries := L.Run(lim, calls).entries;
    ProcessListingDraws(v, list, n);
    assert line in Elems(list);
    ProcessRowTells(v, PostAll(entries), line);
    RunShape(lim, calls);
    var pid := if line.identity.Attributed? then line.identity.pid else 0;
    var path := if line.identity.Attributed? then line.identity.path else None;
    PostedIsTraffic(entries, pid, path, V4(0), "", Inbound);
    PostedIsTraffic(entries, pid, path, V4(0), "", Outbound);
    SeenInTraffic(entries, pid, path, V4(0), "", Inbound);
    NamedInTraffic(entries, pid, path);
  }

  lemma ProcessRowTells(v: Counters, log: seq<Posting>, line: ProcessSnapshot)
    requires Represents(v, log) && line in AllProcessRows(v)
    ensures var id := line.identity;
            var row := if id.Attributed? then Process(ProcessKey(id.pid, id.path)) else Unattributed;
            && line.traffic.recv == Bytes(log, Cell(row, Inbound))
            && line.traffic.sent == Bytes(log, Cell(row, Outbound))
            && Some(line.lastSeen) == LastSeen(log, Whole(row))
            && (id.Attributed? ==> id.name == FirstName(log, ProcessKey(id.pid, id.path)))
  {
    if line.identity.Attributed? {
      assert ProcessMatches(v.processes, log, ProcessKey(line.identity.pid, line.identity.path));
    }
  }

  /** An address line tells the bytes of the flows to or from it, and the time of the last one. */
  lemma AddressLinesTellTheTraffic(
    v: Counters, lim: L.Limits, calls: seq<L.Call>, d: Direction, line: IpSnapshot)
    requires CountersOf(v, lim, calls) && line in AllIpRows(if d == Inbound then v.inIps else v.outIps)
    ensures var entries := L.Run(lim, calls).entries;
            && line.bytes == Sum(entries, Crossing(line.ip, d))
            && Some(line.lastSeen) == Last(entries, CrossingTime(line.ip, d))
  {
    var entries := L.Run(lim, calls).entries;
    RunShape(lim, calls);
    assert IpMatches(if d == Inbound then v.inIps else v.outIps, PostAll(entries), d, line.ip);
    PostedIsTraffic(entries, 0, None, line.ip, "", d);
    SeenInTraffic(entries, 0, None, line.ip, "", d);
  }

  /** A domain line tells the bytes of the flows that named it, each way, and the time of the last one. */
  lemma DomainLinesTellTheTraffic(v: Counters, lim: L.Limits, calls: seq<L.Call>, line: DomainSnapshot)
    requires CountersOf(v, lim, calls) && line in AllDomainRows(v.domains)
    ensures var entries := L.Run(lim, calls).entries;
            && line.traffic.recv == Sum(entries, Named(line.host, Inbound))
            && line.traffic.sent == Sum(entries, Named(line.host, Outbound))
            && Some(line.lastSeen) == Last(entries, NamedTime(line.host))
  {
    var entries := L.Run(lim, calls).entries;
    RunShape(lim, calls);
    assert DomainMatches(v.domains, PostAll(entries), line.host);
    PostedIsTraffic(entries, 0, None, V4(0), line.host, Inbound);
    PostedIsTraffic(entries, 0, None, V4(0), line.host, Outbound);
    SeenInTraffic(entries, 0, None, V4(0), line.host, Inbound);
  }

  // ----- From the packet -----

  /**
   * A packet counts outbound for its destination when this host sent it, and inbound for its source when
   * this host received it; one without ports between two local ends counts outbound only.
   */
  lemma PacketsCountForTheirOtherEnd(p: Packet, localIps: set<IpAddr>)
    requires ParseWithPayload(p, localIps).Some?
    ensures var flow := ParseWithPayload(p, localIps).value.0;
            && flow.bytes == p.bytes
            && RemoteOf(flow, Outbound) == (if p.source in localIps then Some(p.destination) else None)
            && RemoteOf(flow, Inbound) ==
                 (if p.destination in localIps && (p.source !in localIps || !p.transport.OtherTransport?)
                  then Some(p.source) else None)
  {
  }
}
