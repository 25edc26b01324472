/**
 * The background refresher: a loop that waits for its period or for a request, rate-limits the
 * requests, queries the listeners and installs a new table. The state machine below takes one step
 * per channel operation, query and lock operation. Lookups may request a refresh at any moment, also
 * while the refresher drains its channel, which a flood of requests can keep refilling.
 * A wait returns by its deadline, a query and a drain end by their limits, and nothing else takes time.
 */
module Refresher {
  import opened Net
  import opened ProcTables

  const ONE_SECOND: nat := 1_000_000_000

  /** `queryLimit` bounds the time from a wake to the installed result, `drainLimit` that of one drain. */
  datatype Config = Config(refresh: nat, queryLimit: nat, drainLimit: nat) {
    function MinRequestInterval(): nat {
      Min(refresh, ONE_SECOND)
    }

    /** How far into a wait's predecessor a rejected request can restart the wait. */
    function Slack(): nat {
      if MinRequestInterval() == 0 then 0 else MinRequestInterval() - 1
    }

    /** The longest time between the ends of two successive refreshes. */
    function LongestGap(): nat {
      Slack() + drainLimit + refresh + queryLimit
    }
  }

  datatype Phase = Waiting(since: Instant) | Querying(from: Instant) | Draining(from: Instant)

  datatype State = State(
    clock: Instant,
    phase: Phase,
    queued: bool,                       // the request channel holds at most one message
    lastRequestedRefresh: Option<Instant>,
    table: ProcTable,
    // history
    endedAt: Instant,                   // when the last refresh ended
    requestedStarts: seq<Instant>,      // when each request-triggered refresh started
    records: seq<ListenerRecord>,       // what the last successful query listed
    successes: nat,
    failures: nat)

  // ----- Steps -----

  ghost predicate Tick(c: Config, s: State, s': State) {
    && s' == s.(clock := s'.clock)
    && s.clock <= s'.clock
    && match s.phase {
         case Waiting(since) => s'.clock <= since + c.refresh
         case Querying(from) => s'.clock <= from + c.queryLimit
         case Draining(from) => s'.clock <= from + c.drainLimit
       }
  }

  /** `request_refresh` from any lookup: try_send on a channel of capacity one. */
  ghost predicate Request(s: State, s': State) {
    s' == s.(queued := true)
  }

  ghost predicate RejectRequest(c: Config, s: State, s': State) {
    && s.phase.Waiting? && s.queued
    && s.lastRequestedRefresh.Some?
    && SaturatingSince(s.clock, s.lastRequestedRefresh.value) < c.MinRequestInterval()
    && s' == s.(queued := false, phase := Draining(s.clock))
  }

  ghost predicate AcceptRequest(c: Config, s: State, s': State) {
    && s.phase.Waiting? && s.queued
    && (s.lastRequestedRefresh.Some? ==>
          SaturatingSince(s.clock, s.lastRequestedRefresh.value) >= c.MinRequestInterval())
    && s' == s.(queued := false, phase := Querying(s.clock), lastRequestedRefresh := Some(s.clock),
                requestedStarts := s.requestedStarts + [s.clock])
  }

  ghost predicate WakePeriodically(c: Config, s: State, s': State) {
    && s.phase.Waiting? && s.clock == s.phase.since + c.refresh
    && s' == s.(phase := Querying(s.clock))
  }

  ghost predicate Install(c: Config, s: State, s': State, result: Result<seq<ListenerRecord>, string>) {
    && s.phase.Querying?
    && Refreshed(s.table, result, s.clock, c.refresh, s'.table)
    && s' == s.(phase := Draining(s.clock), endedAt := s.clock, table := s'.table,
                records := if result.Success? then result.value else s.records,
                successes := s.successes + (if result.Success? then 1 else 0),
                failures := s.failures + (if result.Failure? then 1 else 0))
  }

  /** One receive of the drain: it takes the queued request, or finds the channel empty and ends. */
  ghost predicate Drain(s: State, s': State) {
    && s.phase.Draining?
    && s' == if s.queued then s.(queued := false) else s.(phase := Waiting(s.clock))
  }

  ghost predicate Next(c: Config, s: State, s': State) {
    || Tick(c, s, s')
    || Request(s, s')
    || RejectRequest(c, s, s')
    || AcceptRequest(c, s, s')
    || WakePeriodically(c, s, s')
    || (exists result :: Install(c, s, s', result))
    || Drain(s, s')
  }

  /** The first refresh, successful or not, ends before the thread starts. */
  ghost predicate Init(c: Config, s: State) {
    && s.phase == Waiting(s.clock) && !s.queued && s.lastRequestedRefresh == None
    && s.endedAt == s.clock && s.requestedStarts == []
    && exists result :: Starts(c, s, result)
  }

  ghost predicate Starts(c: Config, s: State, result: Result<seq<ListenerRecord>, string>) {
    && Refreshed(EMPTY_TABLE.(refreshTx := true), result, s.clock, c.refresh, s.table)
    && s.records == (if result.Success? then result.value else [])
    && s.successes == (if result.Success? then 1 else 0)
    && s.failures == (if result.Failure? then 1 else 0)
  }

  ghost predicate StepsTo(c: Config, run: seq<State>, i: nat) {
    0 < i < |run| ==> Next(c, run[i - 1], run[i])
  }

  ghost predicate IsRun(c: Config, run: seq<State>) {
    run != [] && Init(c, run[0]) && forall i: nat :: StepsTo(c, run, i)
  }

  // ----- What every step keeps -----

  ghost predicate Spaced(starts: seq<Instant>, gap: nat) {
    forall i, j :: 0 <= i < j < |starts| ==> starts[j] >= starts[i] + gap
  }

  ghost predicate TimingInv(c: Config, s: State) {
    && s.endedAt <= s.clock
    && match s.phase {
         case Waiting(since) =>
           s.endedAt <= since <= s.endedAt + c.Slack() + c.drainLimit && since <= s.clock <= since + c.refresh
         case Querying(from) =>
           && s.endedAt <= from <= s.endedAt + c.Slack() + c.drainLimit + c.refresh
           && from <= s.clock <= from + c.queryLimit
         case Draining(from) =>
           s.endedAt <= from <= s.endedAt + c.Slack() && from <= s.clock <= from + c.drainLimit
       }
  }

  ghost predicate RequestInv(c: Config, s: State) {
    && s.lastRequestedRefresh ==
         (if s.requestedStarts == [] then None else Some(s.requestedStarts[|s.requestedStarts| - 1]))
    && Spaced(s.requestedStarts, c.MinRequestInterval())
    && (s.lastRequestedRefresh.Some? ==>
          s.lastRequestedRefresh.value <= if s.phase.Querying? then s.phase.from else s.endedAt)
  }

  ghost predicate TableInv(c: Config, s: State) {
    && Indexes(s.table.entries, s.table.v4MappedAliases, s.records)
    && s.table.generation == s.successes % TWO_TO_64
    && s.table.refreshTx
    && (s.table.refreshedAt.Some? <==> s.successes > 0)
    && (s.successes > 0 ==> s.table.maxAge == MaxAgeFor(c.refresh) && s.table.refreshedAt.value <= s.endedAt)
    && (s.failures == 0 ==> s.table.refreshedAt == Some(s.endedAt))
  }

  ghost predicate Inv(c: Config, s: State) {
    TimingInv(c, s) && RequestInv(c, s) && TableInv(c, s)
  }

  lemma GenerationStep(n: nat)
    ensures (n % TWO_TO_64 + 1) % TWO_TO_64 == (n + 1) % TWO_TO_64
  {
  }

  lemma EmptyIndex()
    ensures Indexes(map[], {}, [])
  {
    forall key ensures IndexesAt(map[], {}, [], key) {
    }
  }

  lemma InitHasInv(c: Config, s: State)
    requires Init(c, s)
    ensures Inv(c, s)
  {
    EmptyIndex();
    var result :| Starts(c, s, result);
  }

  lemma NextKeepsTiming(c: Config, s: State, s': State)
    requires TimingInv(c, s) && Next(c, s, s')
    requires s.lastRequestedRefresh.Some? ==>
      s.lastRequestedRefresh.value <= if s.phase.Querying? then s.phase.from else s.endedAt
    ensures TimingInv(c, s')
  {
  }

  lemma NextKeepsRequests(c: Config, s: State, s': State)
    requires TimingInv(c, s) && RequestInv(c, s) && Next(c, s, s')
    ensures RequestInv(c, s')
  {
  }

  lemma NextKeepsTable(c: Config, s: State, s': State)
    requires TimingInv(c, s) && TableInv(c, s) && Next(c, s, s')
    ensures TableInv(c, s')
  {
    GenerationStep(s.successes);
  }

  lemma NextKeepsInv(c: Config, s: State, s': State)
    requires Inv(c, s) && Next(c, s, s')
    ensures Inv(c, s')
  {
    NextKeepsTiming(c, s, s');
    NextKeepsRequests(c, s, s');
    NextKeepsTable(c, s, s');
  }

  lemma {:induction false} RunKeepsInv(c: Config, run: seq<State>, i: nat)
    requires IsRun(c, run) && i < |run|
    ensures Inv(c, run[i])
  {
    if i == 0 {
      InitHasInv(c, run[0]);
    } else {
      RunKeepsInv(c, run, i - 1);
      assert StepsTo(c, run, i);
      NextKeepsInv(c, run[i - 1], run[i]);
    }
  }

  // ----- Results over whole runs -----

  /**
   * Requests, however dense, neither starve the refresh nor hurry it past its rate limit of one
   * requested refresh per second, or per period if that is shorter.
   */
  lemma RefreshIsNeitherStarvedNorHurried(c: Config, run: seq<State>, i: nat)
    requires IsRun(c, run) && i < |run|
    ensures var interval := if c.refresh < 1_000_000_000 then c.refresh else 1_000_000_000;
            var slack := if interval == 0 then 0 else interval - 1;
            && run[i].clock <= run[i].endedAt + slack + c.drainLimit + c.refresh + c.queryLimit
            && (forall j, k :: 0 <= j < k < |run[i].requestedStarts| ==>
                  run[i].requestedStarts[j] + interval <= run[i].requestedStarts[k])
    ensures run[i].table.generation == run[i].successes % 0x1_0000_0000_0000_0000
  {
    RunKeepsInv(c, run, i);
  }

  /**
   * A request received while waiting starts a refresh exactly when no requested refresh started less
   * than a second ago, or less than a period ago if that is shorter. Any other refresh from a wait
   * starts at least a whole period after the last one ended.
   */
  lemma WakesExactly(c: Config, run: seq<State>, i: nat)
    requires IsRun(c, run) && i + 1 < |run| && run[i].phase.Waiting?
    ensures var s, s' := run[i], run[i + 1];
            var interval := if c.refresh < 1_000_000_000 then c.refresh else 1_000_000_000;
            && (s.queued && !s'.queued ==>
                  && s'.clock == s.clock
                  && (s'.phase.Querying? <==>
                        forall k :: 0 <= k < |s.requestedStarts| ==> s.requestedStarts[k] + interval <= s.clock)
                  && s'.requestedStarts == s.requestedStarts + (if s'.phase.Querying? then [s.clock] else []))
            && (s'.phase.Querying? && s'.queued == s.queued ==>
                  s.endedAt + c.refresh <= s'.clock && s'.requestedStarts == s.requestedStarts)
  {
    RunKeepsInv(c, run, i);
    assert StepsTo(c, run, i + 1);
  }

  /** A refresher that goes back to waiting has taken every request made before: it ends a drain on an empty channel. */
  lemma WaitsOnEmptyChannel(c: Config, run: seq<State>, i: nat)
    requires IsRun(c, run) && i + 1 < |run|
    requires !run[i].phase.Waiting? && run[i + 1].phase.Waiting?
    ensures !run[i].queued && !run[i + 1].queued && run[i].phase.Draining?
  {
    assert StepsTo(c, run, i + 1);
  }

  /**
   * At every moment of every run each lookup scans the last successful listing, or none if there was
   * none yet, or answers Stale. While queries succeed and the gap fits, it never answers Stale.
   */
  lemma LookupsAnswerForLastListing(c: Config, run: seq<State>, i: nat, socket: SocketKey)
    requires IsRun(c, run) && i < |run|
    ensures var s := run[i];
            s.table.LookupOutcomeAt(socket, s.clock) ==
            if s.successes == 0 || s.table.IsFreshAt(s.clock) then Scan(s.records, socket) else Miss(Stale)
    ensures run[i].failures == 0 && c.LongestGap() <= 2 * c.refresh && c.LongestGap() <= DURATION_MAX ==>
              run[i].table.IsFreshAt(run[i].clock)
  {
    RunKeepsInv(c, run, i);
    LookupAgreesWithScan(run[i].table, run[i].records, socket, run[i].clock);
  }

  ghost predicate AlwaysFresh(c: Config, run: seq<State>) {
    forall i :: 0 <= i < |run| && run[i].failures == 0 ==> run[i].table.IsFreshAt(run[i].clock)
  }

  /** While queries succeed the table is never stale: exactly when the longest gap fits twice the period. */
  lemma NeverStaleExactlyWhenGapFits(c: Config)
    ensures (forall run: seq<State> :: IsRun(c, run) ==> AlwaysFresh(c, run))
            <==> c.LongestGap() <= 2 * c.refresh && c.LongestGap() <= DURATION_MAX
  {
    if c.LongestGap() <= MaxAgeFor(c.refresh) {
      forall run: seq<State> | IsRun(c, run) ensures AlwaysFresh(c, run) {
        forall i | 0 <= i < |run| && run[i].failures == 0 ensures run[i].table.IsFreshAt(run[i].clock) {
          RunKeepsInv(c, run, i);
        }
      }
    } else {
      var run := LongestGapRun(c);
      assert !run[|run| - 1].table.IsFreshAt(run[|run| - 1].clock);
      assert !AlwaysFresh(c, run);
    }
  }

  /**
   * The promise as documented: queries and drains of together at most the period less one second, or
   * none with a period below a second, never let the table go stale, as long as durations are representable.
   */
  lemma ShortQueriesNeverGoStale(c: Config)
    requires c.queryLimit + c.drainLimit <= c.refresh - (if c.refresh < 1_000_000_000 then c.refresh else 1_000_000_000)
    ensures (forall run: seq<State> :: IsRun(c, run) ==> AlwaysFresh(c, run)) <==> c.LongestGap() <= DURATION_MAX
  {
    NeverStaleExactlyWhenGapFits(c);
  }

  /** The longest gap in the configuration's own numbers. */
  lemma LongestGapExactly(c: Config)
    ensures var interval := if c.refresh < 1_000_000_000 then c.refresh else 1_000_000_000;
            c.LongestGap() == (if interval == 0 then 0 else interval - 1) + c.drainLimit + c.refresh + c.queryLimit
  {
  }

  /** The rate limit is reached: two requested refreshes exactly a second, or a shorter period, apart. */
  lemma FastestRequestsRun(c: Config) returns (run: seq<State>)
    ensures IsRun(c, run)
    ensures run[|run| - 1].requestedStarts == [0, if c.refresh < 1_000_000_000 then c.refresh else 1_000_000_000]
  {
    run := RequestedAtOnce(c);
    var s := run[|run| - 1];
    var s1 := s.(phase := Waiting(0));
    var s2 := s1.(clock := if c.refresh < 1_000_000_000 then c.refresh else 1_000_000_000);
    var s3 := s2.(queued := true);
    var s4 := s3.(queued := false, phase := Querying(s3.clock), lastRequestedRefresh := Some(s3.clock),
                  requestedStarts := s3.requestedStarts + [s3.clock]);
    assert Drain(s, s1) && Tick(c, s1, s2) && Request(s2, s3) && AcceptRequest(c, s3, s4);
    run := OneMoreStep(c, run, s1);
    run := OneMoreStep(c, run, s2);
    run := OneMoreStep(c, run, s3);
    run := OneMoreStep(c, run, s4);
  }

  /**
   * A run that reaches the longest gap: an instant requested refresh, a late rejection, a drain that
   * takes its time, a full wait, a slow query.
   */
  lemma LongestGapRun(c: Config) returns (run: seq<State>)
    ensures IsRun(c, run)
    ensures var last := run[|run| - 1];
            last.failures == 0 && last.clock == c.LongestGap() && last.table.refreshedAt == Some(0)
            && last.table.maxAge == (if 2 * c.refresh <= DURATION_MAX then 2 * c.refresh else DURATION_MAX)
  {
    run := RequestedAtOnce(c);
    var s := run[|run| - 1];
    if c.MinRequestInterval() > 0 {
      var s1 := s.(phase := Waiting(0));
      var s2 := s1.(clock := c.Slack());
      var s3 := s2.(queued := true);
      s := s3.(queued := false, phase := Draining(s3.clock));
      assert Drain(run[|run| - 1], s1) && Tick(c, s1, s2) && Request(s2, s3) && RejectRequest(c, s3, s);
      run := OneMoreStep(c, run, s1);
      run := OneMoreStep(c, run, s2);
      run := OneMoreStep(c, run, s3);
      run := OneMoreStep(c, run, s);
    }
    run := SlowRound(c, run, s);
  }

  /** A run whose first step is a request that is accepted and answered at once. */
  lemma RequestedAtOnce(c: Config) returns (run: seq<State>)
    ensures IsRun(c, run)
    ensures var last := run[|run| - 1];
            && last.clock == 0 && last.phase == Draining(0) && !last.queued
            && last.lastRequestedRefresh == Some(0) && last.requestedStarts == [0] && last.failures == 0
            && last.table.refreshedAt == Some(0) && last.table.maxAge == MaxAgeFor(c.refresh)
  {
    var table := ProcTable(map[], {}, Some(0), 1, MaxAgeFor(c.refresh), true);
    EmptyIndex();
    var s0 := State(0, Waiting(0), false, None, table, 0, [], [], 1, 0);
    var s1 := s0.(queued := true);
    var s2 := s1.(queued := false, phase := Querying(0), lastRequestedRefresh := Some(0),
                  requestedStarts := s1.requestedStarts + [0]);
    var s3 := s2.(phase := Draining(0), table := table.(generation := 2), successes := 2);
    assert Starts(c, s0, Success([]));
    assert Request(s0, s1) && AcceptRequest(c, s1, s2) && Install(c, s2, s3, Success([]));
    run := [s0];
    run := OneMoreStep(c, run, s1);
    run := OneMoreStep(c, run, s2);
    run := OneMoreStep(c, run, s3);
  }

  /** Drain for as long as allowed, wait for the whole period, query for as long as allowed. */
  lemma SlowRound(c: Config, run: seq<State>, s: State) returns (run': seq<State>)
    requires IsRun(c, run) && run[|run| - 1] == s && s.phase == Draining(s.clock) && !s.queued
    ensures IsRun(c, run')
    ensures var last := run'[|run'| - 1];
            && last.clock == s.clock + c.drainLimit + c.refresh + c.queryLimit
            && last.failures == s.failures && last.table == s.table
  {
    var t1 := s.(clock := s.clock + c.drainLimit);
    var t2 := t1.(phase := Waiting(t1.clock));
    var t3 := t2.(clock := t2.clock + c.refresh);
    var t4 := t3.(phase := Querying(t3.clock));
    var t5 := t4.(clock := t4.clock + c.queryLimit);
    assert Tick(c, s, t1) && Drain(t1, t2) && Tick(c, t2, t3) && WakePeriodically(c, t3, t4) && Tick(c, t4, t5);
    run' := OneMoreStep(c, run, t1);
    run' := OneMoreStep(c, run', t2);
    run' := OneMoreStep(c, run', t3);
    run' := OneMoreStep(c, run', t4);
    run' := OneMoreStep(c, run', t5);
  }

  lemma OneMoreStep(c: Config, run: seq<State>, s: State) returns (run': seq<State>)
    requires IsRun(c, run) && Next(c, run[|run| - 1], s)
    ensures IsRun(c, run') && run' == run + [s]
  {
    run' := run + [s];
    forall i: nat ensures StepsTo(c, run', i) {
      assert StepsTo(c, run, i);
    }
  }
}
