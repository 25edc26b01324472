/** Who is credited: only a process that a consulted table named for that very connection. */
module Credits {
  import opened Net
  import opened ProcTables
  import opened Ledgers
  import opened LedgerLaws

  /** Entry `i` decides for a process. */
  ghost predicate CreditsAt(entries: seq<Entry>, i: nat) {
    i < |entries| && entries[i].Decision? && entries[i].process.Some?
  }

  /** Entry `i` settles a waiting group in a drain: `read` is the one made for the group's own place. */
  ghost predicate Drained(
    l: Ledger, lim: Limits, generation: TableRead, drain: nat -> TableRead, now: Instant,
    i: nat, group: Group, read: TableRead)
  {
    var expired := Expire(l, lim.window, now);
    var place := i - |expired.entries|;
    && GenerationOf(generation).Some? && GenerationOf(generation) != expired.lastGeneration
    && 0 <= place < |expired.queue| && group == expired.queue[place] && read == drain(place)
  }

  /** `read` is the look-up by which `call`, made on `l`, decided `group` in entry `i`. */
  ghost predicate DecidedBy(l: Ledger, lim: Limits, call: Call, i: nat, group: Group, read: TableRead) {
    match call
    case AdvanceCall(generation, drain, now) => Drained(l, lim, generation, drain, now, i, group, read)
    case FlowCall(flow, tables, now, at) =>
      var advanced := Advance(l, lim, tables.generation, tables.drain, now);
      var ends := Endpoints(flow, at, now, |advanced.entries|);
      || Drained(l, lim, tables.generation, tables.drain, now, i, group, read)
      || (i == |advanced.entries| + 1 && group == [ends[0]] && read == tables.local)
      || (i > |advanced.entries| && |ends| == 2 && group == [ends[1]] && read == tables.peer)
  }

  // ----- One call -----

  lemma {:induction false} ExpireCreditsNobody(l: Ledger, window: nat, now: Instant, i: nat)
    requires |l.entries| <= i
    ensures !CreditsAt(Expire(l, window, now).entries, i)
    decreases |l.queue|
  {
    if l.queue != [] && Overdue(l.queue[0], window, now) {
      ExpireExtends(DecideOldest(l), window, now);
      if i > |l.entries| {
        ExpireCreditsNobody(DecideOldest(l), window, now, i);
      } else {
        assert Expire(l, window, now).entries[..i + 1][i] == Decision(None, l.queue[0]);
      }
    }
  }

  lemma AdvanceCredits(
    l: Ledger, lim: Limits, generation: TableRead, drain: nat -> TableRead, now: Instant, i: nat)
    returns (read: TableRead)
    requires |l.entries| <= i && CreditsAt(Advance(l, lim, generation, drain, now).entries, i)
    ensures var e := Advance(l, lim, generation, drain, now).entries[i];
            Drained(l, lim, generation, drain, now, i, e.group, read) && LookupFor(read, e.group) == e.process
  {
    var expired := Expire(l, lim.window, now);
    ExpireCreditsNobody(l, lim.window, now, i);
    DrainSettlesAll(expired.(lastGeneration := GenerationOf(generation)), drain, 0);
    read := drain(i - |expired.entries|);
  }

  lemma PlaceCredits(l: Ledger, capacity: nat, o: Observation, read: TableRead, i: nat)
    requires |l.entries| <= i && CreditsAt(Place(l, capacity, o, read).entries, i)
    ensures i == |l.entries|
    ensures var e := Place(l, capacity, o, read).entries[i];
            e.group == [o] && LookupFor(read, e.group) == e.process
  {
  }

  lemma PerformCredits(l: Ledger, lim: Limits, call: Call, i: nat) returns (read: TableRead)
    requires |l.entries| <= i && CreditsAt(Perform(l, lim, call).entries, i)
    ensures var e := Perform(l, lim, call).entries[i];
            DecidedBy(l, lim, call, i, e.group, read) && LookupFor(read, e.group) == e.process
  {
    match call
    case AdvanceCall(generation, drain, now) =>
      read := AdvanceCredits(l, lim, generation, drain, now, i);
    case FlowCall(flow, tables, now, at) =>
      var advanced := Advance(l, lim, tables.generation, tables.drain, now);
      var ends := Endpoints(flow, at, now, |advanced.entries|);
      var posted := advanced.(entries := advanced.entries + [Traffic(flow, at, now)]);
      var local := Place(posted, lim.capacity, ends[0], tables.local);
      PlaceExtends(posted, lim.capacity, ends[0], tables.local);
      if |ends| == 2 {
        PlaceExtends(local, lim.capacity, ends[1], tables.peer);
      }
      if i < |advanced.entries| {
        assert Perform(l, lim, call).entries[..|posted.entries|][i] == advanced.entries[i];
        read := AdvanceCredits(l, lim, tables.generation, tables.drain, now, i);
      } else if i < |local.entries| {
        read := tables.local;
        PlaceCredits(posted, lim.capacity, ends[0], read, i);
      } else {
        read := tables.peer;
        PlaceCredits(local, lim.capacity, ends[1], read, i);
      }
  }

  // ----- Whole runs -----

  /** The call that made entry `i`, and the look-up by which it decided. */
  lemma {:induction false} CreditIsDecided(lim: Limits, calls: seq<Call>, i: nat) returns (k: nat, read: TableRead)
    requires CreditsAt(Run(lim, calls).entries, i)
    ensures k < |calls|
    ensures var e := Run(lim, calls).entries[i];
            && DecidedBy(Run(lim, calls[..k]), lim, calls[k], i, e.group, read)
            && LookupFor(read, e.group) == e.process
  {
    var n := |calls| - 1;
    var init := calls[..n];
    var l := Run(lim, init);
    PerformExtends(l, lim, calls[n]);
    if i < |l.entries| {
      assert Run(lim, calls).entries[..|l.entries|][i] == l.entries[i];
      k, read := CreditIsDecided(lim, init, i);
      assert init[..k] == calls[..k];
    } else {
      k := n;
      read := PerformCredits(l, lim, calls[n], i);
    }
  }

  /**
   * The process that a listing alone allows on a socket: alone there, or, with nothing there, alone on
   * the same port of 0.0.0.0 or ::, with the name and path of its first such record.
   */
  ghost predicate LoneListener(records: seq<ListenerRecord>, socket: LocalSocket, process: ObservedProcess) {
    var any := LocalSocket(if socket.ip.V4? then V4(0) else V6(0), socket.port, socket.protocol);
    var key := if Pids(records, socket) != {} then socket else any;
    && Pids(records, key) == {process.pid}
    && var info := InfoOf(FirstServing(records, key, process.pid));
       process.name == info.name && process.path == info.path
  }

  /** A table that is not stale finds exactly the lone listener of any listing that it indexes. */
  lemma HitsAreLoneListeners(
    table: ProcTable, records: seq<ListenerRecord>, socket: LocalSocket, at: Instant, p: ObservedProcess)
    requires Indexes(table.entries, table.v4MappedAliases, records)
    ensures LookupProcess(Read(table, at), socket) == Some(p) <==>
              LoneListener(records, socket, p) && (table.refreshedAt.Some? ==> table.IsFreshAt(at))
  {
    LookupAgreesWithScan(table, records, socket, at);
    var key := if Pids(records, socket) != {} then socket else socket.(ip := WildcardFor(socket.ip));
    if |Pids(records, key)| == 1 {
      SingletonIsUnique(Pids(records, key));
      var pid :| pid in Pids(records, key);
      FirstServingIsFirst(records, key, pid);
      assert Pids(records, key) == {pid};
    }
  }

  /** The local socket of an observation's end of the flow. */
  function EndOf(f: Flow, o: Observation): Option<LocalSocket> {
    if o.endpoint == 0 then f.localSocket else f.peerLocalSocket
  }

  /** A table not stale, in which any listing it indexes shows `process` as the lone listener on `socket`. */
  ghost predicate Names(read: TableRead, socket: LocalSocket, process: ObservedProcess) {
    && read.Read?
    && (read.table.refreshedAt.Some? ==> read.table.IsFreshAt(read.at))
    && forall records :: Indexes(read.table.entries, read.table.v4MappedAliases, records) ==>
         LoneListener(records, socket, process)
  }

  lemma FoundIsNamed(read: TableRead, socket: LocalSocket, process: ObservedProcess)
    requires LookupProcess(read, socket) == Some(process)
    ensures Names(read, socket, process)
  {
    forall records | Indexes(read.table.entries, read.table.v4MappedAliases, records)
      ensures LoneListener(records, socket, process)
    {
      HitsAreLoneListeners(read.table, records, socket, read.at, process);
    }
  }

  /**
   * Whenever bytes are credited to a process, the look-up that decided them, in the call that made
   * the entry, was in a table fresh or never refreshed, and any listing that the table indexes shows
   * that process alone on the socket of each observation's own end of its flow, or alone on the
   * socket's wildcard with nothing on the socket itself, with the name and path of its first record.
   */
  lemma CreditsGoToLoneListeners(lim: Limits, calls: seq<Call>, i: nat)
    requires CreditsAt(Run(lim, calls).entries, i)
    ensures var entries := Run(lim, calls).entries;
            exists k: nat, read ::
              && k < |calls| && DecidedBy(Run(lim, calls[..k]), lim, calls[k], i, entries[i].group, read)
              && forall o :: o in entries[i].group ==>
                   && o.flow < |entries| && entries[o.flow].Traffic?
                   && EndOf(entries[o.flow].flow, o).Some?
                   && Names(read, EndOf(entries[o.flow].flow, o).value, entries[i].process.value)
  {
    var entries := Run(lim, calls).entries;
    var e := entries[i];
    var k, read := CreditIsDecided(lim, calls, i);
    RunShape(lim, calls);
    forall o | o in e.group
      ensures o.flow < |entries| && entries[o.flow].Traffic?
      ensures EndOf(entries[o.flow].flow, o).Some?
      ensures Names(read, EndOf(entries[o.flow].flow, o).value, e.process.value)
    {
      HeldSpeakOfTheirFlow(lim, calls, o);
      assert o.connection == ConnectionOf(e.group);
      FoundIsNamed(read, o.connection.value.localSocket, e.process.value);
    }
  }

  // ----- The converse: lone listeners get their credit -----

  /** A table not stale that indexes a listing in which `process` is the lone listener on `socket`. */
  ghost predicate ShowsAlone(
    read: TableRead, records: seq<ListenerRecord>, socket: LocalSocket, process: ObservedProcess)
  {
    && read.Read? && Indexes(read.table.entries, read.table.v4MappedAliases, records)
    && (read.table.refreshedAt.Some? ==> read.table.IsFreshAt(read.at))
    && LoneListener(records, socket, process)
  }

  /** Entry `i` credits to `process`, alone, the observation that a flow's call made of one of its ends. */
  ghost predicate CreditsEnd(entries: seq<Entry>, i: nat, call: Call, endpoint: nat, process: ObservedProcess)
    requires call.FlowCall?
  {
    && CreditsAt(entries, i) && entries[i].process == Some(process) && |entries[i].group| == 1
    && var o := entries[i].group[0];
       o.endpoint == endpoint && o.flow < i && entries[o.flow] == Traffic(call.flow, call.at, call.now)
  }

  lemma PlaceCreditsFound(l: Ledger, capacity: nat, o: Observation, read: TableRead, process: ObservedProcess)
    requires o.connection.Some? && LookupProcess(read, o.connection.value.localSocket) == Some(process)
    ensures Place(l, capacity, o, read).entries == l.entries + [Decision(Some(process), [o])]
  {
  }

  /** A flow of a lone listener is credited to it at once: its own end, and its other end if that is local too. */
  lemma LoneListenersAreCredited(
    l: Ledger, lim: Limits, call: Call, endpoint: nat, records: seq<ListenerRecord>, process: ObservedProcess)
    requires call.FlowCall? && call.flow.localSocket.Some? && call.flow.peerPort.Some?
    requires endpoint == 0 || (endpoint == 1 && call.flow.peerLocalSocket.Some?)
    requires endpoint == 0 ==> ShowsAlone(call.tables.local, records, call.flow.localSocket.value, process)
    requires endpoint == 1 ==> ShowsAlone(call.tables.peer, records, call.flow.peerLocalSocket.value, process)
    ensures exists i: nat :: |l.entries| <= i && CreditsEnd(Perform(l, lim, call).entries, i, call, endpoint, process)
  {
    var flow := call.flow;
    var advanced := Advance(l, lim, call.tables.generation, call.tables.drain, call.now);
    AdvanceExtends(l, lim, call.tables.generation, call.tables.drain, call.now);
    var ends := Endpoints(flow, call.at, call.now, |advanced.entries|);
    var posted := advanced.(entries := advanced.entries + [Traffic(flow, call.at, call.now)]);
    var local := Place(posted, lim.capacity, ends[0], call.tables.local);
    PlaceExtends(posted, lim.capacity, ends[0], call.tables.local);
    var entries := Perform(l, lim, call).entries;
    if endpoint == 0 {
      HitsAreLoneListeners(call.tables.local.table, records, flow.localSocket.value, call.tables.local.at, process);
      PlaceCreditsFound(posted, lim.capacity, ends[0], call.tables.local, process);
      if |ends| == 2 {
        PlaceExtends(local, lim.capacity, ends[1], call.tables.peer);
      }
      var i := |posted.entries|;
      assert entries[..|local.entries|] == local.entries;
      assert entries[i] == local.entries[i] && entries[|advanced.entries|] == local.entries[|advanced.entries|];
      assert CreditsEnd(entries, i, call, endpoint, process);
    } else {
      HitsAreLoneListeners(call.tables.peer.table, records, flow.peerLocalSocket.value, call.tables.peer.at, process);
      PlaceCreditsFound(local, lim.capacity, ends[1], call.tables.peer, process);
      var i := |local.entries|;
      assert local.entries[..|posted.entries|][|advanced.entries|] == Traffic(flow, call.at, call.now);
      assert CreditsEnd(entries, i, call, endpoint, process);
    }
  }

  /**
   * A group that a new table finds still waiting, and not yet too old, is credited to the lone listener
   * that the table shows on its connection's local socket.
   */
  lemma DrainCreditsLoneListeners(
    l: Ledger, lim: Limits, generation: TableRead, drain: nat -> TableRead, now: Instant, i: nat,
    records: seq<ListenerRecord>, process: ObservedProcess)
    requires i < |l.queue| && l.queue[i] != [] && l.queue[i][0].connection.Some?
    requires lim.window > 0 && now < l.queue[i][0].arrived + lim.window
    requires !Unchanged(generation, l)
    requires forall j: nat :: ShowsAlone(drain(j), records, l.queue[i][0].connection.value.localSocket, process)
    ensures Decision(Some(process), l.queue[i]) in Advance(l, lim, generation, drain, now).entries
  {
    NothingGivenUpEarly(l, lim.window, now, i);
    ExpireKeepsGeneration(l, lim.window, now);
    var expired := Expire(l, lim.window, now);
    var j :| 0 <= j < |expired.queue| && expired.queue[j] == l.queue[i];
    DrainSettlesAll(expired.(lastGeneration := GenerationOf(generation)), drain, 0);
    var socket := l.queue[i][0].connection.value.localSocket;
    HitsAreLoneListeners(drain(j).table, records, socket, drain(j).at, process);
    var settled := Settled(expired.queue, drain, 0);
    assert settled[j] == Decision(Some(process), l.queue[i]);
    assert (expired.entries + settled)[|expired.entries| + j] == settled[j];
  }
}
