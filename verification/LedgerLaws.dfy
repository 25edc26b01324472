/** Laws of pending attribution over whole runs: queue order, deadlines, single commitment, balance. */
module LedgerLaws {
  import opened Net
  import opened Ledgers

  // ----- The shape of the queue, under any clock -----

  ghost predicate Uniform(group: Group) {
    && group != []
    && forall i :: 0 <= i < |group| ==>
         group[i].connection == group[0].connection && group[i].direction == group[0].direction
  }

  /** Waiting groups have a connection of their own direction. */
  ghost predicate Routed(group: Group) {
    && Uniform(group)
    && group[0].connection.Some?
    && group[0].connection.value.direction == group[0].direction
  }

  ghost predicate QueueShape(queue: seq<Group>, capacity: nat) {
    && |queue| <= capacity
    && (forall i :: 0 <= i < |queue| ==> Routed(queue[i]))
    && (forall i, j :: 0 <= i < j < |queue| ==> ConnectionOf(queue[i]) != ConnectionOf(queue[j]))
  }

  ghost predicate DecisionsUniform(entries: seq<Entry>) {
    forall i :: 0 <= i < |entries| && entries[i].Decision? ==> Uniform(entries[i].group)
  }

  ghost predicate Shaped(l: Ledger, capacity: nat) {
    QueueShape(l.queue, capacity) && DecisionsUniform(l.entries)
  }

  lemma {:induction false} ExpireShape(l: Ledger, capacity: nat, window: nat, now: Instant)
    requires Shaped(l, capacity)
    ensures Shaped(Expire(l, window, now), capacity)
    decreases |l.queue|
  {
    if l.queue != [] && Overdue(l.queue[0], window, now) {
      ExpireShape(DecideOldest(l), capacity, window, now);
    }
  }

  lemma {:induction false} DrainShape(l: Ledger, capacity: nat, tables: nat -> TableRead, i: nat)
    requires Shaped(l, capacity)
    ensures Shaped(Drain(l, tables, i), capacity)
    ensures Drain(l, tables, i).queue == []
    decreases |l.queue|
  {
    if l.queue != [] {
      var process := LookupFor(tables(i), l.queue[0]);
      DrainShape(Decide(l, process, l.queue[0]).(queue := l.queue[1..]), capacity, tables, i + 1);
    }
  }

  lemma AdvanceShape(l: Ledger, lim: Limits, generation: TableRead, drain: nat -> TableRead, now: Instant)
    requires Shaped(l, lim.capacity)
    ensures Shaped(Advance(l, lim, generation, drain, now), lim.capacity)
  {
    ExpireShape(l, lim.capacity, lim.window, now);
    DrainShape(Expire(l, lim.window, now).(lastGeneration := GenerationOf(generation)), lim.capacity, drain, 0);
  }

  lemma EnqueueShape(l: Ledger, capacity: nat, o: Observation)
    requires Shaped(l, capacity)
    requires Routed([o])
    ensures Shaped(Enqueue(l, capacity, o), capacity)
  {
    var i := FindGroup(l.queue, o.connection);
    var queue' := Enqueue(l, capacity, o).queue;
    assert Uniform([o]);
    if capacity > 0 && i < |l.queue| {
      var merged := l.queue[i] + [o];
      assert Routed(l.queue[i]) && merged[0] == l.queue[i][0];
      assert Routed(merged);
      assert forall j :: 0 <= j < |queue'| ==> ConnectionOf(queue'[j]) == ConnectionOf(l.queue[j]);
    }
  }

  lemma PlaceShape(l: Ledger, capacity: nat, o: Observation, read: TableRead)
    requires Shaped(l, capacity)
    requires o.connection.Some? ==> o.connection.value.direction == o.direction
    ensures Shaped(Place(l, capacity, o, read), capacity)
  {
    assert Uniform([o]);
    if o.connection.Some? {
      EnqueueShape(l, capacity, o);
    }
  }

  lemma PerformShape(l: Ledger, lim: Limits, call: Call)
    requires Shaped(l, lim.capacity)
    ensures Shaped(Perform(l, lim, call), lim.capacity)
  {
    match call
    case AdvanceCall(generation, drain, now) => AdvanceShape(l, lim, generation, drain, now);
    case FlowCall(flow, tables, now, at) =>
      AdvanceShape(l, lim, tables.generation, tables.drain, now);
      var advanced := Advance(l, lim, tables.generation, tables.drain, now);
      var ends := Endpoints(flow, at, now, |advanced.entries|);
      var posted := advanced.(entries := advanced.entries + [Traffic(flow, at, now)]);
      PlaceShape(posted, lim.capacity, ends[0], tables.local);
      if |ends| == 2 {
        PlaceShape(Place(posted, lim.capacity, ends[0], tables.local), lim.capacity, ends[1], tables.peer);
      }
  }

  /** In every run the queue is bounded and holds each connection at most once. */
  lemma {:induction false} RunShape(lim: Limits, calls: seq<Call>)
    ensures Shaped(Run(lim, calls), lim.capacity)
  {
    if calls != [] {
      RunShape(lim, calls[..|calls| - 1]);
      PerformShape(Run(lim, calls[..|calls| - 1]), lim, calls[|calls| - 1]);
    }
  }

  // ----- The order of the queue, under a clock that never runs backwards -----

  function NowOf(call: Call): Instant {
    call.now
  }

  ghost predicate Monotone(calls: seq<Call>) {
    forall i, j :: 0 <= i < j < |calls| ==> NowOf(calls[i]) <= NowOf(calls[j])
  }

  ghost predicate Ordered(queue: seq<Group>, now: Instant) {
    && (forall i, j :: 0 <= i < j < |queue| ==> Since(queue[i]) <= Since(queue[j]))
    && (forall i :: 0 <= i < |queue| ==> queue[i] != [])
    && (forall i, k :: 0 <= i < |queue| && 0 <= k < |queue[i]| ==> Since(queue[i]) <= queue[i][k].arrived <= now)
  }

  /** No waiting observation has reached its deadline. */
  ghost predicate Timely(queue: seq<Group>, window: nat, now: Instant) {
    forall i, k :: 0 <= i < |queue| && 0 <= k < |queue[i]| ==> now < queue[i][k].arrived + window
  }

  ghost function Unresolved(groups: seq<Group>): seq<Entry> {
    seq(|groups|, i requires 0 <= i < |groups| => Decision(None, groups[i]))
  }

  ghost predicate HasWaited(group: Group, window: nat, now: Instant) {
    window == 0 || Since(group) + window <= now
  }

  /** The groups a scan of the whole queue would expire, and those it would keep. */
  ghost function AllOverdue(queue: seq<Group>, window: nat, now: Instant): seq<Group> {
    if queue == [] then []
    else (if HasWaited(queue[0], window, now) then [queue[0]] else []) + AllOverdue(queue[1..], window, now)
  }

  ghost function NotOverdue(queue: seq<Group>, window: nat, now: Instant): seq<Group> {
    if queue == [] then []
    else (if HasWaited(queue[0], window, now) then [] else [queue[0]]) + NotOverdue(queue[1..], window, now)
  }

  lemma {:induction false} FrontKeepsAll(queue: seq<Group>, window: nat, now: Instant)
    requires forall i :: 0 <= i < |queue| ==> !HasWaited(queue[i], window, now)
    ensures AllOverdue(queue, window, now) == [] && NotOverdue(queue, window, now) == queue
  {
    if queue != [] {
      FrontKeepsAll(queue[1..], window, now);
    }
  }

  /** On an ordered queue, expiring only from the front removes exactly what a full filter would. */
  lemma {:induction false} ExpireIsFullFilter(l: Ledger, window: nat, now: Instant, latest: Instant)
    requires Ordered(l.queue, latest)
    ensures var l' := Expire(l, window, now);
            && l'.queue == NotOverdue(l.queue, window, now)
            && l'.entries == l.entries + Unresolved(AllOverdue(l.queue, window, now))
            && l'.lastGeneration == l.lastGeneration
            && Ordered(l'.queue, latest)
            && forall i :: 0 <= i < |l'.queue| ==> !HasWaited(l'.queue[i], window, now)
    decreases |l.queue|
  {
    if l.queue == [] {
    } else if !Overdue(l.queue[0], window, now) {
      FrontKeepsAll(l.queue, window, now);
    } else {
      ExpireIsFullFilter(DecideOldest(l), window, now, latest);
      UnresolvedCons(l.entries, l.queue[0], AllOverdue(l.queue[1..], window, now));
    }
  }

  lemma UnresolvedCons(entries: seq<Entry>, group: Group, late: seq<Group>)
    ensures entries + [Decision(None, group)] + Unresolved(late) == entries + Unresolved([group] + late)
  {
    assert Unresolved([group] + late) == [Decision(None, group)] + Unresolved(late);
  }

  /** One look-up per group, in queue order, each in its own read of the table. */
  ghost function Settled(groups: seq<Group>, drain: nat -> TableRead, from: nat): seq<Entry> {
    seq(|groups|, k requires 0 <= k < |groups| => Decision(LookupFor(drain(from + k), groups[k]), groups[k]))
  }

  lemma {:induction false} DrainSettlesAll(l: Ledger, drain: nat -> TableRead, i: nat)
    ensures Drain(l, drain, i) == Ledger(l.entries + Settled(l.queue, drain, i), [], l.lastGeneration)
    decreases |l.queue|
  {
    if l.queue == [] {
      assert l.entries + Settled([], drain, i) == l.entries;
    } else {
      var first := Decision(LookupFor(drain(i), l.queue[0]), l.queue[0]);
      DrainSettlesAll(Decide(l, first.process, l.queue[0]).(queue := l.queue[1..]), drain, i + 1);
      SettledCons(l.entries, l.queue, drain, i);
    }
  }

  lemma SettledCons(entries: seq<Entry>, groups: seq<Group>, drain: nat -> TableRead, i: nat)
    requires groups != []
    ensures entries + [Decision(LookupFor(drain(i), groups[0]), groups[0])] + Settled(groups[1..], drain, i + 1) ==
            entries + Settled(groups, drain, i)
  {
    var rest := Settled(groups[1..], drain, i + 1);
    forall k | 0 <= k < |rest| ensures Settled(groups, drain, i)[k + 1] == rest[k] {
      assert groups[1..][k] == groups[k + 1];
    }
    assert Settled(groups, drain, i) == [Decision(LookupFor(drain(i), groups[0]), groups[0])] + rest;
  }

  /**
   * Advancing gives up every overdue group. An unreadable table or a generation already seen changes
   * nothing else; a new one settles every remaining group by a single look-up each.
   */
  lemma AdvanceExactly(
    l: Ledger, lim: Limits, generation: TableRead, drain: nat -> TableRead, now: Instant, latest: Instant)
    requires Ordered(l.queue, latest)
    ensures var late, kept := AllOverdue(l.queue, lim.window, now), NotOverdue(l.queue, lim.window, now);
            var seen := GenerationOf(generation);
            Advance(l, lim, generation, drain, now) ==
            if seen.None? || seen == l.lastGeneration
            then Ledger(l.entries + Unresolved(late), kept, l.lastGeneration)
            else Ledger(l.entries + Unresolved(late) + Settled(kept, drain, 0), [], seen)
  {
    ExpireIsFullFilter(l, lim.window, now, latest);
    var expired := Expire(l, lim.window, now);
    DrainSettlesAll(expired.(lastGeneration := GenerationOf(generation)), drain, 0);
  }

  lemma FreshGroupsAreTimely(queue: seq<Group>, window: nat, now: Instant, latest: Instant)
    requires Ordered(queue, latest) && latest <= now
    requires forall i :: 0 <= i < |queue| ==> !HasWaited(queue[i], window, now)
    ensures Ordered(queue, now) && Timely(queue, window, now)
  {
    forall i, k | 0 <= i < |queue| && 0 <= k < |queue[i]| ensures now < queue[i][k].arrived + window {
      assert !HasWaited(queue[i], window, now);
    }
  }

  lemma AdvanceTimely(
    l: Ledger, lim: Limits, generation: TableRead, drain: nat -> TableRead, now: Instant, latest: Instant)
    requires Shaped(l, lim.capacity) && Ordered(l.queue, latest) && latest <= now
    ensures var l' := Advance(l, lim, generation, drain, now);
            Ordered(l'.queue, now) && Timely(l'.queue, lim.window, now)
  {
    ExpireIsFullFilter(l, lim.window, now, latest);
    ExpireShape(l, lim.capacity, lim.window, now);
    var expired := Expire(l, lim.window, now);
    FreshGroupsAreTimely(expired.queue, lim.window, now, latest);
    DrainShape(expired.(lastGeneration := GenerationOf(generation)), lim.capacity, drain, 0);
  }

  lemma MergeOrdered(queue: seq<Group>, i: nat, o: Observation, window: nat, now: Instant)
    requires Ordered(queue, now) && Timely(queue, window, now) && o.arrived == now && i < |queue|
    ensures Ordered(queue[i := queue[i] + [o]], now)
    ensures window > 0 ==> Timely(queue[i := queue[i] + [o]], window, now)
  {
    var queue' := queue[i := queue[i] + [o]];
    forall j | 0 <= j < |queue| ensures Since(queue'[j]) == Since(queue[j]) && queue'[j] != [] {
    }
    forall j, k | 0 <= j < |queue'| && 0 <= k < |queue'[j]|
      ensures Since(queue'[j]) <= queue'[j][k].arrived <= now && (window > 0 ==> now < queue'[j][k].arrived + window)
    {
      if j == i && k == |queue[i]| {
        assert Since(queue[i]) <= queue[i][0].arrived <= now;
      } else {
        assert queue'[j][k] == queue[j][k];
      }
    }
  }

  lemma AppendOrdered(queue: seq<Group>, o: Observation, window: nat, now: Instant)
    requires Ordered(queue, now) && Timely(queue, window, now) && o.arrived == now
    ensures Ordered(queue + [[o]], now)
    ensures window > 0 ==> Timely(queue + [[o]], window, now)
  {
    forall j | 0 <= j < |queue| ensures Since(queue[j]) <= now {
      assert Since(queue[j]) <= queue[j][0].arrived <= now;
    }
  }

  lemma PlaceOrdered(l: Ledger, capacity: nat, o: Observation, read: TableRead, window: nat, now: Instant)
    requires Ordered(l.queue, now) && o.arrived == now
    requires Timely(l.queue, window, now)
    ensures var l' := Place(l, capacity, o, read);
            Ordered(l'.queue, now) && (window > 0 ==> Timely(l'.queue, window, now))
  {
    var i := FindGroup(l.queue, o.connection);
    if i < |l.queue| {
      MergeOrdered(l.queue, i, o, window, now);
    } else {
      AppendOrdered(l.queue, o, window, now);
      if l.queue != [] {
        AppendOrdered(l.queue[1..], o, window, now);
      }
    }
  }

  lemma PerformOrdered(l: Ledger, lim: Limits, call: Call, latest: Instant)
    requires Shaped(l, lim.capacity) && Ordered(l.queue, latest) && latest <= NowOf(call)
    ensures Ordered(Perform(l, lim, call).queue, NowOf(call))
    ensures lim.window > 0 || call.AdvanceCall? ==> Timely(Perform(l, lim, call).queue, lim.window, NowOf(call))
  {
    match call
    case AdvanceCall(generation, drain, now) => AdvanceTimely(l, lim, generation, drain, now, latest);
    case FlowCall(flow, tables, now, at) =>
      AdvanceTimely(l, lim, tables.generation, tables.drain, now, latest);
      var advanced := Advance(l, lim, tables.generation, tables.drain, now);
      var ends := Endpoints(flow, at, now, |advanced.entries|);
      var posted := advanced.(entries := advanced.entries + [Traffic(flow, at, now)]);
      var window := if lim.window > 0 then lim.window else 1;
      assert Timely(posted.queue, window, now);
      PlaceOrdered(posted, lim.capacity, ends[0], tables.local, window, now);
      if |ends| == 2 {
        var local := Place(posted, lim.capacity, ends[0], tables.local);
        PlaceOrdered(local, lim.capacity, ends[1], tables.peer, window, now);
      }
  }

  lemma {:induction false} RunOrdered(lim: Limits, calls: seq<Call>)
    requires Monotone(calls)
    ensures Ordered(Run(lim, calls).queue, if calls == [] then 0 else NowOf(calls[|calls| - 1]))
    ensures calls != [] && (lim.window > 0 || calls[|calls| - 1].AdvanceCall?) ==>
              Timely(Run(lim, calls).queue, lim.window, NowOf(calls[|calls| - 1]))
  {
    if calls != [] {
      var init := calls[..|calls| - 1];
      RunOrdered(lim, init);
      RunShape(lim, init);
      PerformOrdered(Run(lim, init), lim, calls[|calls| - 1], if init == [] then 0 else NowOf(init[|init| - 1]));
    }
  }

  // ----- Nothing is given up early -----

  /** Expiry keeps every group whose first observation is younger than the window, in any order and under any clock. */
  lemma {:induction false} NothingGivenUpEarly(l: Ledger, window: nat, now: Instant, i: nat)
    requires i < |l.queue| && l.queue[i] != []
    requires window > 0 && now < l.queue[i][0].arrived + window
    ensures l.queue[i] in Expire(l, window, now).queue
    decreases |l.queue|
  {
    if Overdue(l.queue[0], window, now) {
      NothingGivenUpEarly(DecideOldest(l), window, now, i - 1);
    }
  }

  ghost predicate Unchanged(generation: TableRead, l: Ledger) {
    generation.Poisoned? || Some(generation.table.generation) == l.lastGeneration
  }

  lemma {:induction false} ExpireKeepsGeneration(l: Ledger, window: nat, now: Instant)
    ensures Expire(l, window, now).lastGeneration == l.lastGeneration
    decreases |l.queue|
  {
    if l.queue != [] && Overdue(l.queue[0], window, now) {
      ExpireKeepsGeneration(DecideOldest(l), window, now);
    }
  }

  /**
   * In every run with a clock that never runs backwards, an advance that reads no new table keeps a
   * group exactly while its first observation is younger than the window; a new table leaves nothing waiting.
   */
  lemma WaitsExactlyUntilDeadline(
    lim: Limits, calls: seq<Call>, generation: TableRead, drain: nat -> TableRead, now: Instant, i: nat)
    requires Monotone(calls + [AdvanceCall(generation, drain, now)])
    requires i < |Run(lim, calls).queue|
    ensures var l, l' := Run(lim, calls), Run(lim, calls + [AdvanceCall(generation, drain, now)]);
            && l.queue[i] != []
            && (Unchanged(generation, l) ==>
                  (l.queue[i] in l'.queue <==> lim.window > 0 && now < l.queue[i][0].arrived + lim.window))
            && (!Unchanged(generation, l) ==> l'.queue == [] && l'.lastGeneration == Some(generation.table.generation))
  {
    var call := AdvanceCall(generation, drain, now);
    var all, l := calls + [call], Run(lim, calls);
    assert all[..|calls|] == calls && all[|calls|] == call;
    RunShape(lim, calls);
    RunOrdered(lim, calls);
    RunOrdered(lim, all);
    ExpireKeepsGeneration(l, lim.window, now);
    var expired := Expire(l, lim.window, now);
    DrainSettlesAll(expired.(lastGeneration := GenerationOf(generation)), drain, 0);
    if lim.window > 0 && now < l.queue[i][0].arrived + lim.window {
      NothingGivenUpEarly(l, lim.window, now, i);
    }
  }

  /** What waits after a placement waited before, or is the observation placed. */
  lemma PlaceAddsOnly(l: Ledger, capacity: nat, o: Observation, read: TableRead, x: Observation)
    requires forall i :: 0 <= i < |l.queue| ==> x !in l.queue[i]
    requires x != o
    ensures forall i :: 0 <= i < |Place(l, capacity, o, read).queue| ==> x !in Place(l, capacity, o, read).queue[i]
  {
  }

  /** A call of either kind that reads a new table leaves no earlier observation waiting: each is decided. */
  lemma NewTableSettlesAll(lim: Limits, calls: seq<Call>, call: Call, o: Observation)
    requires Captured(Run(lim, calls).entries, o)
    requires var generation := if call.FlowCall? then call.tables.generation else call.generation;
             !Unchanged(generation, Run(lim, calls))
    ensures Decided(Run(lim, calls + [call]).entries, Is(o)) == 1
  {
    var all, l := calls + [call], Run(lim, calls);
    assert all[..|calls|] == calls && all[|calls|] == call;
    var l' := Run(lim, all);
    RunExtends(lim, calls, [call]);
    assert l'.entries[..|l.entries|][o.flow] == l.entries[o.flow];
    CommittedOnce(lim, all, [], o);
    NothingElseWaits(l, lim, call, o);
    QueuedNowhere(l'.queue, o);
  }

  lemma NothingElseWaits(l: Ledger, lim: Limits, call: Call, o: Observation)
    requires o.flow < |l.entries|
    requires var generation := if call.FlowCall? then call.tables.generation else call.generation;
             !Unchanged(generation, l)
    ensures forall i :: 0 <= i < |Perform(l, lim, call).queue| ==> o !in Perform(l, lim, call).queue[i]
  {
    ExpireKeepsGeneration(l, lim.window, call.now);
    var expired := Expire(l, lim.window, call.now);
    match call
    case AdvanceCall(generation, drain, now) =>
      DrainSettlesAll(expired.(lastGeneration := GenerationOf(generation)), drain, 0);
    case FlowCall(flow, tables, now, at) =>
      DrainSettlesAll(expired.(lastGeneration := GenerationOf(tables.generation)), tables.drain, 0);
      var advanced := Advance(l, lim, tables.generation, tables.drain, now);
      AdvanceExtends(l, lim, tables.generation, tables.drain, now);
      var ends := Endpoints(flow, at, now, |advanced.entries|);
      var posted := advanced.(entries := advanced.entries + [Traffic(flow, at, now)]);
      PlaceAddsOnly(posted, lim.capacity, ends[0], tables.local, o);
      if |ends| == 2 {
        PlaceAddsOnly(Place(posted, lim.capacity, ends[0], tables.local), lim.capacity, ends[1], tables.peer, o);
      }
  }

  // ----- Overflow -----

  /** Whether a group of this connection waits. */
  ghost predicate Waits(queue: seq<Group>, connection: Option<ConnectionKey>) {
    exists i :: 0 <= i < |queue| && ConnectionOf(queue[i]) == connection
  }

  /**
   * Queueing never decides for a process. Without capacity the observation is given up at once; one of a
   * waiting connection joins it, keeping its age; otherwise it waits last, and only when the queue is
   * full is one group given up for it: the one that has waited longest.
   */
  lemma QueueingExactly(l: Ledger, capacity: nat, o: Observation, now: Instant)
    requires QueueShape(l.queue, capacity) && Ordered(l.queue, now)
    ensures var l' := Enqueue(l, capacity, o);
            && (capacity == 0 ==> l'.queue == l.queue && l'.entries == l.entries + [Decision(None, [o])])
            && (capacity > 0 && Waits(l.queue, o.connection) ==>
                  l'.entries == l.entries && |l'.queue| == |l.queue|
                  && forall i :: 0 <= i < |l.queue| ==>
                       l'.queue[i] == l.queue[i] + if ConnectionOf(l.queue[i]) == o.connection then [o] else [])
            && (capacity > 0 && !Waits(l.queue, o.connection) && |l.queue| < capacity ==>
                  l'.entries == l.entries && l'.queue == l.queue + [[o]])
            && (capacity > 0 && !Waits(l.queue, o.connection) && |l.queue| == capacity ==>
                  exists victim :: l.queue == [victim] + l.queue[1..]
                    && (forall i :: 0 <= i < |l.queue| ==> victim[0].arrived <= l.queue[i][0].arrived)
                    && l'.entries == l.entries + [Decision(None, victim)] && l'.queue == l.queue[1..] + [[o]])
  {
    if capacity > 0 && !Waits(l.queue, o.connection) && |l.queue| == capacity {
      var victim := l.queue[0];
      assert l.queue == [victim] + l.queue[1..];
      forall i | 0 <= i < |l.queue| ensures victim[0].arrived <= l.queue[i][0].arrived {
        assert Since(l.queue[0]) <= Since(l.queue[i]);
      }
    }
    assert FindGroup(l.queue, o.connection) < |l.queue| <==> Waits(l.queue, o.connection);
  }

  // ----- Single commitment -----

  ghost function Is(o: Observation): Observation -> nat {
    (x: Observation) => if x == o then 1 else 0
  }

  ghost predicate Captured(entries: seq<Entry>, o: Observation) {
    && o.flow < |entries|
    && entries[o.flow].Traffic?
    && o in Endpoints(entries[o.flow].flow, entries[o.flow].at, entries[o.flow].now, o.flow)
  }

  /** An observation is seen once if the ledger captured it, and otherwise never. */
  lemma {:induction false} SeenAtMostOnce(entries: seq<Entry>, o: Observation)
    ensures Seen(entries, Is(o)) == if Captured(entries, o) then 1 else 0
  {
    if entries != [] {
      var n := |entries| - 1;
      SeenAtMostOnce(entries[..n], o);
      if entries[n].Traffic? {
        var ends := Endpoints(entries[n].flow, entries[n].at, entries[n].now, n);
        if |ends| == 2 {
          assert ends == [ends[0], ends[1]];
          WeighTwo(ends[0], ends[1], Is(o));
        } else {
          assert ends == [ends[0]];
          WeighOne(ends[0], Is(o));
        }
      }
    }
  }

  lemma {:induction false} AbsentWeighsNothing(group: Group, o: Observation)
    ensures Weigh(group, Is(o)) > 0 <==> o in group
  {
    if group != [] {
      AbsentWeighsNothing(group[..|group| - 1], o);
      assert group == group[..|group| - 1] + [group[|group| - 1]];
    }
  }

  lemma {:induction false} QueuedNowhere(queue: seq<Group>, o: Observation)
    requires forall i :: 0 <= i < |queue| ==> o !in queue[i]
    ensures Queued(queue, Is(o)) == 0
  {
    if queue != [] {
      AbsentWeighsNothing(queue[0], o);
      QueuedNowhere(queue[1..], o);
    }
  }

  ghost predicate Extends(more: seq<Entry>, entries: seq<Entry>) {
    |entries| <= |more| && more[..|entries|] == entries
  }

  lemma {:induction false} ExpireExtends(l: Ledger, window: nat, now: Instant)
    ensures Extends(Expire(l, window, now).entries, l.entries)
    decreases |l.queue|
  {
    if l.queue != [] && Overdue(l.queue[0], window, now) {
      ExpireExtends(DecideOldest(l), window, now);
    }
  }

  lemma {:induction false} DrainExtends(l: Ledger, tables: nat -> TableRead, i: nat)
    ensures Extends(Drain(l, tables, i).entries, l.entries)
    decreases |l.queue|
  {
    if l.queue != [] {
      DrainExtends(Decide(l, LookupFor(tables(i), l.queue[0]), l.queue[0]).(queue := l.queue[1..]), tables, i + 1);
    }
  }

  lemma AdvanceExtends(l: Ledger, lim: Limits, generation: TableRead, drain: nat -> TableRead, now: Instant)
    ensures Extends(Advance(l, lim, generation, drain, now).entries, l.entries)
  {
    ExpireExtends(l, lim.window, now);
    DrainExtends(Expire(l, lim.window, now).(lastGeneration := GenerationOf(generation)), drain, 0);
  }

  lemma PlaceExtends(l: Ledger, capacity: nat, o: Observation, read: TableRead)
    ensures Extends(Place(l, capacity, o, read).entries, l.entries)
  {
  }

  lemma PerformExtends(l: Ledger, lim: Limits, call: Call)
    ensures Extends(Perform(l, lim, call).entries, l.entries)
  {
    match call
    case AdvanceCall(generation, drain, now) => AdvanceExtends(l, lim, generation, drain, now);
    case FlowCall(flow, tables, now, at) =>
      AdvanceExtends(l, lim, tables.generation, tables.drain, now);
      var advanced := Advance(l, lim, tables.generation, tables.drain, now);
      var ends := Endpoints(flow, at, now, |advanced.entries|);
      var posted := advanced.(entries := advanced.entries + [Traffic(flow, at, now)]);
      PlaceExtends(posted, lim.capacity, ends[0], tables.local);
      if |ends| == 2 {
        PlaceExtends(Place(posted, lim.capacity, ends[0], tables.local), lim.capacity, ends[1], tables.peer);
      }
  }

  lemma {:induction false} RunExtends(lim: Limits, calls: seq<Call>, more: seq<Call>)
    ensures Extends(Run(lim, calls + more).entries, Run(lim, calls).entries)
  {
    if more == [] {
      assert calls + more == calls;
    } else {
      var all := calls + more;
      assert all[..|all| - 1] == calls + more[..|more| - 1];
      RunExtends(lim, calls, more[..|more| - 1]);
      PerformExtends(Run(lim, all[..|all| - 1]), lim, all[|all| - 1]);
    }
  }

  lemma {:induction false} DecidedGrows(entries: seq<Entry>, more: seq<Entry>, w: Observation -> nat)
    requires Extends(more, entries)
    ensures Decided(entries, w) <= Decided(more, w)
    decreases |more|
  {
    if |entries| == |more| {
      assert more == entries;
    } else {
      assert more[..|more| - 1][..|entries|] == entries;
      DecidedGrows(entries, more[..|more| - 1], w);
    }
  }

  lemma {:induction false} DecisionWeighs(entries: seq<Entry>, i: nat, o: Observation)
    requires i < |entries| && entries[i].Decision? && o in entries[i].group
    ensures Decided(entries, Is(o)) > 0
  {
    if i == |entries| - 1 {
      AbsentWeighsNothing(entries[i].group, o);
    } else {
      DecisionWeighs(entries[..|entries| - 1], i, o);
    }
  }

  lemma {:induction false} WaitingWeighs(queue: seq<Group>, i: nat, o: Observation)
    requires i < |queue| && o in queue[i]
    ensures Queued(queue, Is(o)) > 0
  {
    if i == 0 {
      AbsentWeighsNothing(queue[0], o);
    } else {
      WaitingWeighs(queue[1..], i - 1, o);
    }
  }

  /** The observation says of its end what the flow says: 0 is the flow's own end, 1 the other local one. */
  ghost predicate SpeaksOf(o: Observation, f: Flow, at: Time, now: Instant) {
    && o.bytes == f.bytes && o.at == at && o.arrived == now
    && (o.endpoint == 0 || o.endpoint == 1)
    && (o.endpoint == 0 ==>
          && o.direction == f.direction
          && (o.connection.None? <==> f.localSocket.None? || f.peerPort.None?)
          && (o.connection.Some? ==>
                o.connection.value == ConnectionKey(f.localSocket.value, f.peer, f.peerPort.value, f.direction)))
    && (o.endpoint == 1 ==>
          && o.direction == Inbound && f.peerLocalSocket.Some? && f.localSocket.Some?
          && o.connection == Some(ConnectionKey(
               f.peerLocalSocket.value, f.localSocket.value.ip, f.localSocket.value.port, Inbound)))
  }

  lemma CapturedSpeaks(entries: seq<Entry>, o: Observation)
    requires Captured(entries, o)
    ensures SpeaksOf(o, entries[o.flow].flow, entries[o.flow].at, entries[o.flow].now)
  {
  }

  /** Every flow is observed once at its own end, and once more exactly when both ends are local sockets. */
  lemma FlowsAreObserved(entries: seq<Entry>, k: nat, endpoint: nat)
    requires k < |entries| && entries[k].Traffic?
    ensures var f := entries[k].flow;
            (exists o :: Captured(entries, o) && o.flow == k && o.endpoint == endpoint) <==>
            endpoint == 0 || (endpoint == 1 && f.peerLocalSocket.Some? && f.localSocket.Some?)
  {
    var ends := Endpoints(entries[k].flow, entries[k].at, entries[k].now, k);
    assert Captured(entries, ends[0]) && ends[0].endpoint == 0;
    if |ends| == 2 {
      assert Captured(entries, ends[1]) && ends[1].endpoint == 1;
    }
  }

  /** Whatever is decided or waits in a run was captured, and speaks of its flow. */
  lemma HeldSpeakOfTheirFlow(lim: Limits, calls: seq<Call>, o: Observation)
    requires var l := Run(lim, calls);
             || (exists i :: 0 <= i < |l.entries| && l.entries[i].Decision? && o in l.entries[i].group)
             || (exists i :: 0 <= i < |l.queue| && o in l.queue[i])
    ensures var entries := Run(lim, calls).entries;
            && o.flow < |entries| && entries[o.flow].Traffic?
            && SpeaksOf(o, entries[o.flow].flow, entries[o.flow].at, entries[o.flow].now)
  {
    var l := Run(lim, calls);
    if i :| 0 <= i < |l.entries| && l.entries[i].Decision? && o in l.entries[i].group {
      DecisionWeighs(l.entries, i, o);
    } else {
      var i :| 0 <= i < |l.queue| && o in l.queue[i];
      WaitingWeighs(l.queue, i, o);
    }
    RunConserves(lim, calls, Is(o));
    SeenAtMostOnce(l.entries, o);
    CapturedSpeaks(l.entries, o);
  }

  /**
   * Each captured observation is in exactly one decision or exactly one waiting place; decisions
   * are never revised; and once decided it is decided in the same place in every continuation.
   */
  lemma CommittedOnce(lim: Limits, calls: seq<Call>, more: seq<Call>, o: Observation)
    requires Captured(Run(lim, calls).entries, o)
    ensures var l, later := Run(lim, calls), Run(lim, calls + more);
            && Decided(l.entries, Is(o)) + Queued(l.queue, Is(o)) == 1
            && Extends(later.entries, l.entries)
            && (Decided(l.entries, Is(o)) == 1 ==>
                  Decided(later.entries, Is(o)) == 1 && Queued(later.queue, Is(o)) == 0)
  {
    var l, later := Run(lim, calls), Run(lim, calls + more);
    RunConserves(lim, calls, Is(o));
    RunConserves(lim, calls + more, Is(o));
    SeenAtMostOnce(l.entries, o);
    SeenAtMostOnce(later.entries, o);
    RunExtends(lim, calls, more);
    DecidedGrows(l.entries, later.entries, Is(o));
  }

  /**
   * With a clock that never runs backwards, every observation is decided by the first call at or
   * after its arrival plus the window, even one merged into an older group.
   */
  lemma DecidedByDeadline(lim: Limits, calls: seq<Call>, o: Observation)
    requires Monotone(calls) && calls != []
    requires lim.window > 0 || calls[|calls| - 1].AdvanceCall?
    requires Captured(Run(lim, calls).entries, o)
    requires o.arrived + lim.window <= NowOf(calls[|calls| - 1])
    ensures Decided(Run(lim, calls).entries, Is(o)) == 1
  {
    var l := Run(lim, calls);
    CommittedOnce(lim, calls, [], o);
    RunOrdered(lim, calls);
    forall i | 0 <= i < |l.queue| ensures o !in l.queue[i] {
    }
    QueuedNowhere(l.queue, o);
  }

  // ----- Interface bytes against observed bytes -----

  ghost function BytesIn(d: Direction): Observation -> nat {
    (o: Observation) => if o.direction == d then o.bytes else 0
  }

  function InterfaceBytes(flow: Flow, d: Direction): nat {
    if flow.peerLocalSocket.Some? || flow.direction == d then flow.bytes else 0
  }

  ghost function Moved(entries: seq<Entry>, d: Direction): nat {
    if entries == [] then 0
    else
      var n := |entries| - 1;
      Moved(entries[..n], d) + if entries[n].Traffic? then InterfaceBytes(entries[n].flow, d) else 0
  }

  /** A second local socket comes only with an outbound flow that has a first one. */
  predicate WellFormed(flow: Flow) {
    flow.peerLocalSocket.Some? ==> flow.direction == Outbound && flow.localSocket.Some?
  }

  ghost predicate AllWellFormed(entries: seq<Entry>) {
    forall i :: 0 <= i < |entries| && entries[i].Traffic? ==> WellFormed(entries[i].flow) || entries[i].flow.bytes == 0
  }

  lemma EndpointBytes(flow: Flow, at: Time, now: Instant, id: nat, d: Direction)
    ensures Weigh(Endpoints(flow, at, now, id), BytesIn(d)) ==
            (if flow.direction == d then flow.bytes else 0)
            + (if d == Inbound && flow.peerLocalSocket.Some? && flow.localSocket.Some? then flow.bytes else 0)
  {
    var ends := Endpoints(flow, at, now, id);
    if |ends| == 2 {
      assert ends == [ends[0], ends[1]];
      WeighTwo(ends[0], ends[1], BytesIn(d));
    } else {
      assert ends == [ends[0]];
      WeighOne(ends[0], BytesIn(d));
    }
  }

  ghost predicate AllBut(entries: seq<Entry>, bad: Flow -> bool) {
    forall i :: 0 <= i < |entries| && entries[i].Traffic? ==> !bad(entries[i].flow)
  }

  predicate Reversed(f: Flow) {
    f.peerLocalSocket.Some? && f.direction == Inbound && f.bytes > 0
  }

  predicate OneEnded(f: Flow) {
    f.peerLocalSocket.Some? && f.localSocket.None? && f.direction == Outbound && f.bytes > 0
  }

  lemma {:induction false} OutboundGap(entries: seq<Entry>)
    ensures Moved(entries, Outbound) >= Seen(entries, BytesIn(Outbound))
    ensures Moved(entries, Outbound) == Seen(entries, BytesIn(Outbound)) <==> AllBut(entries, Reversed)
  {
    if entries != [] {
      var n := |entries| - 1;
      OutboundGap(entries[..n]);
      if entries[n].Traffic? {
        EndpointBytes(entries[n].flow, entries[n].at, entries[n].now, n, Outbound);
      }
      assert AllBut(entries, Reversed) <==>
             AllBut(entries[..n], Reversed) && (entries[n].Traffic? ==> !Reversed(entries[n].flow));
    }
  }

  lemma {:induction false} InboundGap(entries: seq<Entry>)
    requires AllBut(entries, Reversed)
    ensures Moved(entries, Inbound) >= Seen(entries, BytesIn(Inbound))
    ensures Moved(entries, Inbound) == Seen(entries, BytesIn(Inbound)) <==> AllBut(entries, OneEnded)
  {
    if entries != [] {
      var n := |entries| - 1;
      InboundGap(entries[..n]);
      if entries[n].Traffic? {
        EndpointBytes(entries[n].flow, entries[n].at, entries[n].now, n, Inbound);
        assert !Reversed(entries[n].flow);
      }
      assert AllBut(entries, OneEnded) <==>
             AllBut(entries[..n], OneEnded) && (entries[n].Traffic? ==> !OneEnded(entries[n].flow));
    }
  }

  /** What crossed the interface one way is decided or waiting. */
  ghost predicate Balanced(l: Ledger, d: Direction) {
    Moved(l.entries, d) == Decided(l.entries, BytesIn(d)) + Queued(l.queue, BytesIn(d))
  }

  /** Both directions balance, in every run, exactly when every flow with bytes is well formed. */
  lemma RunBalancesExactlyWhenWellFormed(lim: Limits, calls: seq<Call>)
    ensures var l := Run(lim, calls);
            Balanced(l, Inbound) && Balanced(l, Outbound) <==> AllWellFormed(l.entries)
  {
    var l := Run(lim, calls);
    RunConserves(lim, calls, BytesIn(Inbound));
    RunConserves(lim, calls, BytesIn(Outbound));
    WellFormedSplit(l.entries);
    OutboundGap(l.entries);
    if AllBut(l.entries, Reversed) {
      InboundGap(l.entries);
    }
  }

  lemma WellFormedSplit(entries: seq<Entry>)
    ensures AllWellFormed(entries) <==> AllBut(entries, Reversed) && AllBut(entries, OneEnded)
  {
    forall i | 0 <= i < |entries| && entries[i].Traffic?
      ensures (WellFormed(entries[i].flow) || entries[i].flow.bytes == 0)
              <==> !Reversed(entries[i].flow) && !OneEnded(entries[i].flow)
    {
    }
  }
}
