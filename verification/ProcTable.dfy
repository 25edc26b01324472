/** The process table: a hash index over listener records, and its refresh. */
module ProcTables {
  import opened Net

  /** An (address, port, protocol) triple. */
  type SocketKey = LocalSocket

  /** Duration::MAX in nanoseconds. */
  const DURATION_MAX: nat := 0x1_0000_0000_0000_0000 * 1_000_000_000 - 1

  datatype ProcInfo = ProcInfo(pid: U32, name: Option<string>, path: Option<string>)

  /** `fileName` is the non-empty UTF-8 file name the platform extracts from `path`, if any. */
  datatype ListenerRecord = ListenerRecord(
    socket: SocketKey, pid: U32, name: string, path: string, fileName: Option<string>)

  datatype MissReason = NoCandidate | Ambiguous | Stale

  datatype LookupOutcome = Hit(process: ProcInfo, v4Mapped: bool) | Miss(reason: MissReason)

  type Entries = map<SocketKey, map<U32, ProcInfo>>

  datatype ProcTable = ProcTable(
    entries: Entries,
    v4MappedAliases: set<SocketKey>,
    refreshedAt: Option<Instant>,
    generation: nat,
    maxAge: nat,
    refreshTx: bool)
  {
    predicate IsFreshAt(now: Instant) {
      refreshedAt.Some? && SaturatingSince(now, refreshedAt.value) <= maxAge
    }

    function LookupOutcomeAt(socket: SocketKey, now: Instant): LookupOutcome {
      var wildcard := socket.(ip := WildcardFor(socket.ip));
      if refreshedAt.Some? && SaturatingSince(now, refreshedAt.value) > maxAge then Miss(Stale)
      else if socket in entries then OnlyCandidate(socket)
      else if wildcard in entries then OnlyCandidate(wildcard)
      else Miss(NoCandidate)
    }

    function OnlyCandidate(key: SocketKey): LookupOutcome
      requires key in entries
    {
      var candidates := entries[key];
      if |candidates| != 1 then Miss(Ambiguous)
      else
        SingletonIsUnique(candidates.Keys);
        var pid :| pid in candidates.Keys;
        Hit(candidates[pid], key in v4MappedAliases)
    }
  }

  const EMPTY_TABLE := ProcTable(map[], {}, None, 0, 0, false)

  function WildcardFor(ip: IpAddr): IpAddr {
    match ip
    case V4(_) => V4(0)
    case V6(_) => V6(0)
  }

  /** The IPv4 address inside an IPv4-mapped IPv6 address (section 2.5.5.2 of RFC 4291). */
  function ToIpv4Mapped(ip: IpAddr): Option<IpAddr> {
    if ip.V6? && ip.wide / 0x1_0000_0000 == 0xFFFF then Some(V4(ip.wide % 0x1_0000_0000)) else None
  }

  /** Freshness in the table's own numbers. */
  lemma FreshExactly(table: ProcTable, now: Instant)
    ensures table.IsFreshAt(now) <==> table.refreshedAt.Some? && now <= table.refreshedAt.value + table.maxAge
  {
  }

  /** Exactly the addresses ::ffff:a.b.c.d are mapped, each to its a.b.c.d. */
  lemma MappedAddressesExactly(ip: IpAddr, v4: U32)
    ensures ToIpv4Mapped(ip) == Some(V4(v4)) <==> ip.V6? && ip.wide == 0xFFFF_0000_0000 + v4
  {
  }

  /** The keys one listener is filed under, each with whether it is an IPv4 alias. */
  function SocketKeys(socket: SocketKey): seq<(SocketKey, bool)> {
    match ToIpv4Mapped(socket.ip)
    case Some(ipv4) => [(socket, false), (socket.(ip := ipv4), true)]
    case None => [(socket, false)]
  }

  function InfoOf(record: ListenerRecord): ProcInfo {
    ProcInfo(
      record.pid,
      if record.fileName.Some? then record.fileName
      else if record.name != "" then Some(record.name) else None,
      if record.path != "" then Some(record.path) else None)
  }

  lemma SingletonIsUnique<T>(s: set<T>)
    requires |s| == 1
    ensures exists x :: x in s
    ensures forall x, y :: x in s && y in s ==> x == y
  {
    var x :| x in s;
    assert |s - {x}| == 0;
    assert s == {x} + (s - {x});
  }

  // ----- The reference: a linear scan of the records -----

  /** A listener serves its own socket, and the IPv4 socket its address maps to. */
  predicate Serves(record: ListenerRecord, key: SocketKey) {
    record.socket == key || IsAliasOf(record, key)
  }

  predicate IsAliasOf(record: ListenerRecord, key: SocketKey) {
    var ipv4 := ToIpv4Mapped(record.socket.ip);
    ipv4.Some? && key == record.socket.(ip := ipv4.value)
  }

  ghost function Pids(records: seq<ListenerRecord>, key: SocketKey): set<U32> {
    set r | r in records && Serves(r, key) :: r.pid
  }

  /** The first record, in listing order, of the process `pid` that serves `key`. */
  ghost function FirstServing(records: seq<ListenerRecord>, key: SocketKey, pid: U32): ListenerRecord
    requires pid in Pids(records, key)
  {
    if Serves(records[0], key) && records[0].pid == pid then records[0]
    else FirstServing(records[1..], key, pid)
  }

  ghost predicate HasAlias(records: seq<ListenerRecord>, key: SocketKey) {
    exists r :: r in records && IsAliasOf(r, key)
  }

  ghost function Judge(records: seq<ListenerRecord>, key: SocketKey): LookupOutcome
    requires Pids(records, key) != {}
  {
    if |Pids(records, key)| != 1 then Miss(Ambiguous)
    else
      var pid :| pid in Pids(records, key);
      Hit(InfoOf(FirstServing(records, key, pid)), HasAlias(records, key))
  }

  ghost function Scan(records: seq<ListenerRecord>, socket: SocketKey): LookupOutcome {
    var wildcard := socket.(ip := WildcardFor(socket.ip));
    if Pids(records, socket) != {} then Judge(records, socket)
    else if Pids(records, wildcard) != {} then Judge(records, wildcard)
    else Miss(NoCandidate)
  }

  // ----- The index -----

  function Candidates(entries: Entries, key: SocketKey): map<U32, ProcInfo> {
    if key in entries then entries[key] else map[]
  }

  ghost predicate IndexesAt(entries: Entries, aliases: set<SocketKey>, records: seq<ListenerRecord>, key: SocketKey) {
    var candidates := Candidates(entries, key);
    && (key in entries <==> Pids(records, key) != {})
    && candidates.Keys == Pids(records, key)
    && (forall pid :: pid in candidates ==> candidates[pid] == InfoOf(FirstServing(records, key, pid)))
    && (key in aliases <==> HasAlias(records, key))
  }

  /** `entries` and `aliases` index exactly `records`. */
  ghost predicate Indexes(entries: Entries, aliases: set<SocketKey>, records: seq<ListenerRecord>) {
    forall key :: IndexesAt(entries, aliases, records, key)
  }

  lemma PidsAppend(records: seq<ListenerRecord>, r: ListenerRecord, key: SocketKey)
    ensures Pids(records + [r], key) == Pids(records, key) + if Serves(r, key) then {r.pid} else {}
  {
    forall pid | pid in Pids(records, key) ensures pid in Pids(records + [r], key) {
      var q :| q in records && Serves(q, key) && q.pid == pid;
      assert q in records + [r];
    }
    if Serves(r, key) {
      assert r in records + [r];
    }
  }

  lemma {:induction false} FirstServingAppend(
    records: seq<ListenerRecord>, r: ListenerRecord, key: SocketKey, pid: U32)
    requires pid in Pids(records + [r], key)
    ensures FirstServing(records + [r], key, pid) ==
            if pid in Pids(records, key) then FirstServing(records, key, pid) else r
  {
    if records == [] {
      assert records + [r] == [r];
    } else {
      assert (records + [r])[1..] == records[1..] + [r];
      if !(Serves(records[0], key) && records[0].pid == pid) {
        PidsAppend([records[0]], r, key);
        assert records == [records[0]] + records[1..];
        assert pid in Pids(records, key) <==> pid in Pids(records[1..], key);
        assert pid in Pids(records[1..] + [r], key);
        FirstServingAppend(records[1..], r, key, pid);
      }
    }
  }

  function Insert(entries: Entries, key: SocketKey, info: ProcInfo): Entries {
    var candidates := Candidates(entries, key);
    entries[key := if info.pid in candidates then candidates else candidates[info.pid := info]]
  }

  function FileUnder(entries: Entries, keys: seq<(SocketKey, bool)>, info: ProcInfo): Entries {
    if keys == [] then entries
    else Insert(FileUnder(entries, keys[..|keys| - 1], info), keys[|keys| - 1].0, info)
  }

  /** Filing a record under its socket keys adds its process at exactly the keys it serves. */
  lemma FileUnderSocketKeys(entries: Entries, r: ListenerRecord, key: SocketKey)
    ensures var filed := FileUnder(entries, SocketKeys(r.socket), InfoOf(r));
            && (key in filed <==> key in entries || Serves(r, key))
            && Candidates(filed, key) ==
               Candidates(if Serves(r, key) then Insert(entries, key, InfoOf(r)) else entries, key)
  {
    var keys, info := SocketKeys(r.socket), InfoOf(r);
    var once := Insert(entries, r.socket, info);
    assert keys[..0] == [];
    assert FileUnder(entries, keys[..1], info) == once by {
      assert keys[..1][..0] == [] && keys[..1][0] == keys[0];
    }
    assert keys[..|keys|] == keys;
    if |keys| == 2 {
      assert FileUnder(entries, keys, info) == Insert(once, keys[1].0, info);
    }
  }

  lemma KeysAppend(
    entries: Entries, aliases: set<SocketKey>, records: seq<ListenerRecord>, r: ListenerRecord, key: SocketKey)
    requires IndexesAt(entries, aliases, records, key)
    ensures var filed := FileUnder(entries, SocketKeys(r.socket), InfoOf(r));
            && (key in filed <==> Pids(records + [r], key) != {})
            && Candidates(filed, key).Keys == Pids(records + [r], key)
  {
    FileUnderSocketKeys(entries, r, key);
    PidsAppend(records, r, key);
  }

  lemma InfoAppend(
    entries: Entries, aliases: set<SocketKey>, records: seq<ListenerRecord>, r: ListenerRecord,
    key: SocketKey, pid: U32)
    requires IndexesAt(entries, aliases, records, key) && pid in Pids(records + [r], key)
    ensures var filed := FileUnder(entries, SocketKeys(r.socket), InfoOf(r));
            pid in Candidates(filed, key)
            && Candidates(filed, key)[pid] == InfoOf(FirstServing(records + [r], key, pid))
  {
    FileUnderSocketKeys(entries, r, key);
    PidsAppend(records, r, key);
    FirstServingAppend(records, r, key, pid);
  }

  lemma AliasAppend(records: seq<ListenerRecord>, r: ListenerRecord, key: SocketKey)
    ensures HasAlias(records + [r], key) <==> HasAlias(records, key) || key in AliasKeys(r.socket)
  {
    assert r in records + [r];
    if HasAlias(records, key) {
      var q :| q in records && IsAliasOf(q, key);
      assert q in records + [r];
    }
  }

  lemma IndexAppend(
    entries: Entries, aliases: set<SocketKey>, records: seq<ListenerRecord>, r: ListenerRecord, key: SocketKey)
    requires IndexesAt(entries, aliases, records, key)
    ensures IndexesAt(
      FileUnder(entries, SocketKeys(r.socket), InfoOf(r)), aliases + AliasKeys(r.socket), records + [r], key)
  {
    KeysAppend(entries, aliases, records, r, key);
    forall pid | pid in Pids(records + [r], key) {
      InfoAppend(entries, aliases, records, r, key, pid);
    }
    AliasAppend(records, r, key);
  }

  function AliasKeys(socket: SocketKey): set<SocketKey> {
    var ipv4 := ToIpv4Mapped(socket.ip);
    if ipv4.Some? then {socket.(ip := ipv4.value)} else {}
  }

  method FromRecords(records: seq<ListenerRecord>) returns (entries: Entries, aliases: set<SocketKey>)
    ensures Indexes(entries, aliases, records)
  {
    entries, aliases := map[], {};
    for i := 0 to |records|
      invariant Indexes(entries, aliases, records[..i])
    {
      var record := records[i];
      var keys := SocketKeys(record.socket);
      ghost var entries0, aliases0 := entries, aliases;
      for j := 0 to |keys|
        invariant entries == FileUnder(entries0, keys[..j], InfoOf(record))
        invariant aliases == aliases0 + if j == 2 then AliasKeys(record.socket) else {}
      {
        var (key, isAlias) := keys[j];
        if isAlias {
          aliases := aliases + {key};
        }
        entries := Insert(entries, key, InfoOf(record));
        assert keys[..j + 1][..j] == keys[..j];
      }
      assert keys[..|keys|] == keys;
      ghost var filed := records[..i + 1];
      assert filed == records[..i] + [record];
      forall key ensures IndexesAt(entries, aliases, filed, key) {
        IndexAppend(entries0, aliases0, records[..i], record, key);
      }
    }
    assert records[..|records|] == records;
  }

  /** Every lookup in the index gives the answer of the linear scan, and Stale exactly when too old. */
  lemma LookupAgreesWithScan(table: ProcTable, records: seq<ListenerRecord>, socket: SocketKey, now: Instant)
    requires Indexes(table.entries, table.v4MappedAliases, records)
    ensures table.LookupOutcomeAt(socket, now) ==
            if table.refreshedAt.Some? && !table.IsFreshAt(now) then Miss(Stale) else Scan(records, socket)
  {
    var wildcard := socket.(ip := WildcardFor(socket.ip));
    assert IndexesAt(table.entries, table.v4MappedAliases, records, socket);
    assert IndexesAt(table.entries, table.v4MappedAliases, records, wildcard);
    if socket in table.entries {
      OnlyCandidateIsJudged(table, records, socket);
    } else if wildcard in table.entries {
      OnlyCandidateIsJudged(table, records, wildcard);
    }
  }

  lemma OnlyCandidateIsJudged(table: ProcTable, records: seq<ListenerRecord>, key: SocketKey)
    requires IndexesAt(table.entries, table.v4MappedAliases, records, key)
    requires key in table.entries
    ensures table.OnlyCandidate(key) == Judge(records, key)
  {
    assert |table.entries[key]| == |table.entries[key].Keys|;
    if |Pids(records, key)| == 1 {
      SingletonIsUnique(Pids(records, key));
    }
  }

  /** A listener serves its own socket, and one on ::ffff:a.b.c.d also the same port of a.b.c.d; nothing else. */
  lemma ServesExactly(r: ListenerRecord, ip: IpAddr, port: U16, protocol: TransportProtocol)
    ensures Serves(r, LocalSocket(ip, port, protocol)) <==>
              && r.socket.port == port && r.socket.protocol == protocol
              && (r.socket.ip == ip || (ip.V4? && r.socket.ip == V6(0xFFFF_0000_0000 + ip.bits)))
  {
    if ip.V4? {
      MappedAddressesExactly(r.socket.ip, ip.bits);
    }
  }

  ghost predicate ListensMapped(records: seq<ListenerRecord>, v4: U32, port: U16, protocol: TransportProtocol) {
    exists r :: r in records && r.socket == LocalSocket(V6(0xFFFF_0000_0000 + v4), port, protocol)
  }

  /**
   * A hit is exactly a lone process on the socket, or else a lone process on 0.0.0.0 or on :: with the
   * same port. It is reported as IPv4-mapped exactly when a mapped listener serves the socket that answered.
   */
  lemma HitsExactlyLoneProcesses(records: seq<ListenerRecord>, ip: IpAddr, port: U16, protocol: TransportProtocol)
    ensures var outcome := Scan(records, LocalSocket(ip, port, protocol));
            var exact := Pids(records, LocalSocket(ip, port, protocol));
            var wild := Pids(records, LocalSocket(if ip.V4? then V4(0) else V6(0), port, protocol));
            var answering := if exact != {} then ip else if ip.V4? then V4(0) else V6(0);
            && (outcome.Hit? <==> |exact| == 1 || (exact == {} && |wild| == 1))
            && (outcome == Miss(NoCandidate) <==> exact == {} && wild == {})
            && (outcome == Miss(Ambiguous) <==> |exact| > 1 || (exact == {} && |wild| > 1))
            && (outcome.Hit? ==> outcome.process.pid in if exact == {} then wild else exact)
            && (outcome.Hit? ==>
                  (outcome.v4Mapped <==> answering.V4? && ListensMapped(records, answering.bits, port, protocol)))
  {
    var socket := LocalSocket(ip, port, protocol);
    var key := if Pids(records, socket) == {} then socket.(ip := if ip.V4? then V4(0) else V6(0)) else socket;
    if |Pids(records, key)| == 1 {
      SingletonIsUnique(Pids(records, key));
      var pid :| pid in Pids(records, key);
      FirstServingIsFirst(records, key, pid);
      forall r | r in records
        ensures IsAliasOf(r, key) <==>
                key.ip.V4? && r.socket == LocalSocket(V6(0xFFFF_0000_0000 + key.ip.bits), port, protocol)
      {
        if key.ip.V4? {
          MappedAddressesExactly(r.socket.ip, key.ip.bits);
        }
      }
    }
  }

  /** The name of the executable, or else the process's own unless empty; and the path unless empty. */
  ghost predicate Tells(process: ProcInfo, r: ListenerRecord) {
    && process.pid == r.pid
    && (forall name: string :: process.name == Some(name) <==>
          r.fileName == Some(name) || (r.fileName.None? && name != "" && r.name == name))
    && (forall path: string :: process.path == Some(path) <==> path != "" && r.path == path)
  }

  /** A hit reports what the listing says of the first record of that process for the answering socket. */
  lemma HitsTellFirstRecord(records: seq<ListenerRecord>, ip: IpAddr, port: U16, protocol: TransportProtocol)
    requires Scan(records, LocalSocket(ip, port, protocol)).Hit?
    ensures var process := Scan(records, LocalSocket(ip, port, protocol)).process;
            var none := Pids(records, LocalSocket(ip, port, protocol)) == {};
            var key := LocalSocket(if !none then ip else if ip.V4? then V4(0) else V6(0), port, protocol);
            exists i ::
              && 0 <= i < |records| && Serves(records[i], key) && Tells(process, records[i])
              && forall j :: 0 <= j < i ==> !(Serves(records[j], key) && records[j].pid == process.pid)
  {
    var socket := LocalSocket(ip, port, protocol);
    var key := if Pids(records, socket) != {} then socket else socket.(ip := WildcardFor(ip));
    SingletonIsUnique(Pids(records, key));
    var pid :| pid in Pids(records, key);
    FirstServingIsFirst(records, key, pid);
    assert Tells(InfoOf(FirstServing(records, key, pid)), FirstServing(records, key, pid));
  }

  /** The record that answers is a listed one, serves the key, and nothing listed before it does. */
  lemma {:induction false} FirstServingIsFirst(records: seq<ListenerRecord>, key: SocketKey, pid: U32)
    requires pid in Pids(records, key)
    ensures exists i :: 0 <= i < |records| && records[i] == FirstServing(records, key, pid)
                     && Serves(records[i], key) && records[i].pid == pid
                     && forall j :: 0 <= j < i ==> !(Serves(records[j], key) && records[j].pid == pid)
  {
    if Serves(records[0], key) && records[0].pid == pid {
    } else {
      FirstServingIsFirst(records[1..], key, pid);
      var i :| 0 <= i < |records[1..]| && records[1..][i] == FirstServing(records[1..], key, pid)
               && Serves(records[1..][i], key) && records[1..][i].pid == pid
               && forall j :: 0 <= j < i ==> !(Serves(records[1..][j], key) && records[1..][j].pid == pid);
      forall j | 0 <= j < i + 1 ensures !(Serves(records[j], key) && records[j].pid == pid) {
        if j > 0 {
          assert records[j] == records[1..][j - 1];
        }
      }
      assert records[i + 1] == records[1..][i];
    }
  }

  // ----- Refreshing -----

  function MaxAgeFor(refresh: nat): nat {
    Min(2 * refresh, DURATION_MAX)
  }

  /** What one refresh may do to the table: nothing on failure, a new index on success. */
  ghost predicate Refreshed(
    table: ProcTable, result: Result<seq<ListenerRecord>, string>, at: Instant, refresh: nat, table': ProcTable)
  {
    match result
    case Failure(_) => table' == table
    case Success(records) =>
      && Indexes(table'.entries, table'.v4MappedAliases, records)
      && table'.refreshedAt == Some(at)
      && table'.generation == (table.generation + 1) % TWO_TO_64
      && table'.maxAge == MaxAgeFor(refresh)
      && table'.refreshTx == table.refreshTx
  }

  /** The table behind its lock, as the lookups and the refresher share it. */
  class SharedProcTable {
    var table: ProcTable

    constructor ()
      ensures table == EMPTY_TABLE
    {
      table := EMPTY_TABLE;
    }

    method RefreshAt(result: Result<seq<ListenerRecord>, string>, refreshedAt: Instant, refresh: nat)
      modifies this
      ensures Refreshed(old(table), result, refreshedAt, refresh, table)
    {
      if result.Failure? {
        return;
      }
      var entries, aliases := FromRecords(result.value);
      table := ProcTable(
        entries, aliases, Some(refreshedAt), (table.generation + 1) % TWO_TO_64, MaxAgeFor(refresh), table.refreshTx);
    }
  }

  /**
   * A successful refresh answers from its own records for twice the period, or for the longest
   * representable duration if that is less; a failed one changes no answer.
   */
  lemma RefreshedAnswers(
    table: ProcTable, result: Result<seq<ListenerRecord>, string>, at: Instant, refresh: nat, table': ProcTable,
    socket: SocketKey, now: Instant)
    requires Refreshed(table, result, at, refresh, table')
    ensures result.Failure? ==> table'.LookupOutcomeAt(socket, now) == table.LookupOutcomeAt(socket, now)
    ensures result.Success? ==>
      table'.LookupOutcomeAt(socket, now) ==
        (if now > at + 2 * refresh || now > at + DURATION_MAX then Miss(Stale) else Scan(result.value, socket))
  {
    if result.Success? {
      LookupAgreesWithScan(table', result.value, socket, now);
    }
  }
}
