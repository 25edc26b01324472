/**
 * From every moment of every run: what was captured can still be recorded and delivered, a source error
 * can still be reported, and once stopped each worker does at most one more piece of work.
 */
module Progress {
  import opened Net
  import opened Ledgers
  import opened LedgerLaws
  import opened Pipelines
  import opened Deliveries

  ghost predicate IsPath(path: seq<State>, s: State, t: State) {
    path != [] && path[0] == s && path[|path| - 1] == t && forall i: nat :: StepsTo(path, i)
  }

  ghost predicate Reaches(s: State, t: State) {
    exists path :: IsPath(path, s, t)
  }

  lemma ReachesItself(s: State)
    ensures Reaches(s, s)
  {
    assert IsPath([s], s, s);
  }

  lemma ReachesNext(s: State, t: State, u: State)
    requires Reaches(s, t) && Next(t, u)
    ensures Reaches(s, u)
  {
    var path :| IsPath(path, s, t);
    var longer := path + [u];
    forall i: nat ensures StepsTo(longer, i) {
      assert StepsTo(path, i);
    }
    assert IsPath(longer, s, u);
  }

  lemma {:induction false} Joined(path: seq<State>, s: State, t: State, u: State)
    requires Reaches(s, t) && IsPath(path, t, u)
    ensures Reaches(s, u)
    decreases |path|
  {
    if |path| > 1 {
      var init, last := ButLast(path, t, u);
      Joined(init, s, t, last);
      ReachesNext(s, last, u);
    }
  }

  lemma ReachesOn(s: State, t: State, u: State)
    requires Reaches(s, t) && Reaches(t, u)
    ensures Reaches(s, u)
  {
    var path :| IsPath(path, t, u);
    Joined(path, s, t, u);
  }

  /** A path but for its last step. */
  lemma ButLast(path: seq<State>, s: State, t: State) returns (init: seq<State>, u: State)
    requires IsPath(path, s, t) && |path| > 1
    ensures init == path[..|path| - 1] && IsPath(init, s, u) && Next(u, t)
  {
    init := path[..|path| - 1];
    u := init[|init| - 1];
    forall i: nat ensures StepsTo(init, i) {
      assert StepsTo(path, i);
    }
    assert StepsTo(path, |path| - 1);
  }

  lemma {:induction false} PathKeepsInv(path: seq<State>, s: State, t: State)
    requires Inv(s) && IsPath(path, s, t)
    ensures Inv(t)
    decreases |path|
  {
    if |path| > 1 {
      var init, u := ButLast(path, s, t);
      PathKeepsInv(init, s, u);
      NextKeepsInv(u, t);
    } else {
      assert path[0] == s && path[0] == t;
    }
  }

  lemma ReachingKeepsInv(s: State, t: State)
    requires Inv(s) && Reaches(s, t)
    ensures Inv(t)
  {
    var path :| IsPath(path, s, t);
    PathKeepsInv(path, s, t);
  }

  /** A run goes on to whatever its last state reaches. */
  lemma {:induction false} RunReaching(run: seq<State>, path: seq<State>, s: State, t: State) returns (run': seq<State>)
    requires IsRun(run) && run[|run| - 1] == s && IsPath(path, s, t)
    ensures IsRun(run') && IsPrefix(run, run') && run'[|run'| - 1] == t
    decreases |path|
  {
    run' := run;
    if |path| > 1 {
      var init, u := ButLast(path, s, t);
      var shorter := RunReaching(run, init, s, u);
      run' := OneMoreStep(shorter, t);
      PrefixTransitive(run, shorter, run');
    }
  }

  lemma RunGoesOn(run: seq<State>, s: State, t: State) returns (run': seq<State>)
    requires IsRun(run) && run[|run| - 1] == s && Reaches(s, t)
    ensures IsRun(run') && IsPrefix(run, run') && run'[|run'| - 1] == t
  {
    var path :| IsPath(path, s, t);
    run' := RunReaching(run, path, s, t);
  }

  // ----- The owner ends what it is doing, and polls -----

  /** Only the owner did something. */
  ghost predicate OwnerAlone(s: State, t: State) {
    && t.cap == s.cap && t.agg == s.agg && t.flows == s.flows && t.failure == s.failure && t.stop == s.stop
  }

  /** The snapshot that the rest of a poll will find last. */
  function Due(s: State): seq<Published> {
    if s.own.pc.Draining? && s.snapshots != [] then [s.snapshots[|s.snapshots| - 1]]
    else if (s.own.pc.Draining? || s.own.pc.Reporting?) && s.own.pc.latest.Some? then [s.own.pc.latest.value]
    else []
  }

  ghost function PollNext(s: State): State
    requires Polling(s.own.pc)
  {
    match s.own.pc
    case Draining(latest) =>
      if s.snapshots != [] then
        s.(own := s.own.(pc := Draining(Some(s.snapshots[0]))), snapshots := s.snapshots[1..])
      else
        s.(own := s.own.(pc := if SnapshotSenderGone(s) then Orphaned else Reporting(latest)))
    case _ =>
      s.(own := if s.failure.Some? then s.own.(pc := Idle, errors := s.own.errors + [s.failure.value])
                else s.own.(pc := Idle, delivered := s.own.delivered + Due(s)))
  }

  function PollDistance(s: State): nat {
    if s.own.pc.Draining? then |s.snapshots| + 1 else 0
  }

  lemma PollNextFollows(s: State)
    requires Polling(s.own.pc) && (s.own.pc.Orphaned? ==> s.failure.Some?)
    ensures Next(s, PollNext(s)) && OwnerAlone(s, PollNext(s))
  {
    assert OwnerStep(s, PollNext(s));
  }

  lemma PollComesCloser(s: State)
    requires s.own.pc.Draining?
    ensures var t := PollNext(s);
      && Polling(t.own.pc) && PollDistance(t) < PollDistance(s)
      && t.own.errors == s.own.errors && t.own.delivered == s.own.delivered
      && (t.own.pc.Draining? || t.snapshots == [])
      && (t.own.pc.Orphaned? || Due(t) == Due(s))
  {
  }

  lemma OrphanedFollowsFailure(s: State)
    requires Inv(s) && s.own.pc.Orphaned?
    ensures s.failure.Some?
  {
  }

  lemma PollGoesOn(s: State) returns (t: State)
    requires Inv(s) && Polling(s.own.pc)
    ensures t == PollNext(s) && Inv(t) && Reaches(s, t) && OwnerAlone(s, t)
    ensures t.own.pc.Orphaned? ==> t.failure.Some?
  {
    t := PollNext(s);
    if s.own.pc.Orphaned? {
      OrphanedFollowsFailure(s);
    }
    PollNextFollows(s);
    NextKeepsInv(s, t);
    ReachesItself(s);
    ReachesNext(s, s, t);
    if t.own.pc.Orphaned? {
      OrphanedFollowsFailure(t);
    }
  }

  /** From any point of a poll the owner comes back: with the error in the failure cell, or with what is due. */
  lemma {:induction false} PollEnds(s: State) returns (t: State)
    requires Inv(s) && Polling(s.own.pc)
    ensures Reaches(s, t) && OwnerAlone(s, t) && t.own.pc.Idle?
    ensures s.own.pc.Draining? || s.snapshots == [] ==> t.snapshots == []
    ensures t.own.errors == s.own.errors + if s.failure.Some? then [s.failure.value] else []
    ensures t.own.delivered == s.own.delivered + if s.failure.None? then Due(s) else []
    decreases PollDistance(s)
  {
    var s' := PollGoesOn(s);
    t := s';
    if s.own.pc.Draining? {
      PollComesCloser(s);
      t := PollEnds(s');
      ReachesOn(s, s', t);
    }
  }

  /** From wherever it is, an owner that has not begun to stop gets back to being idle. */
  lemma OwnerComesBack(s: State) returns (t: State)
    requires Inv(s) && !s.stop
    ensures Reaches(s, t) && OwnerAlone(s, t) && t.own.pc.Idle?
    ensures s.failure.None? ==> t.own.errors == s.own.errors
  {
    t := s;
    ReachesItself(s);
    if Polling(s.own.pc) {
      t := PollEnds(s);
    } else if s.own.pc.ReadinessClosed? {
      var error := if s.failure.Some? then s.failure.value else WorkerStopped("capture");
      t := s.(own := s.own.(pc := Idle, pollErrors := s.own.pollErrors + [error]));
      assert OwnerStep(s, t);
      ReachesNext(s, s, t);
    }
  }

  /** An idle owner polls: with the error in the failure cell, or with the last snapshot in the channel. */
  lemma OwnerPolls(s: State) returns (t: State)
    requires Inv(s) && s.own.pc.Idle?
    ensures Reaches(s, t) && OwnerAlone(s, t) && t.own.pc.Idle? && t.snapshots == []
    ensures t.own.errors == s.own.errors + if s.failure.Some? then [s.failure.value] else []
    ensures s.failure.None? ==>
              t.own.delivered == s.own.delivered
                + if s.snapshots == [] then [] else [s.snapshots[|s.snapshots| - 1]]
  {
    var s' := s.(own := s.own.(pc := Draining(None)));
    assert OwnerStep(s, s');
    NextKeepsInv(s, s');
    ReachesItself(s);
    ReachesNext(s, s, s');
    t := PollEnds(s');
    ReachesOn(s, s', t);
  }

  // ----- The aggregate worker records and publishes -----

  /** Neither stopped nor failed. */
  ghost predicate Healthy(s: State) {
    Inv(s) && !s.stop && s.failure.None? && s.cap.sourceError.None?
  }

  lemma NextKeepsHealthy(s: State, s': State)
    requires Healthy(s) && Next(s, s') && s'.stop == s.stop && s'.failure == s.failure
    requires s'.cap.sourceError == s.cap.sourceError
    ensures Healthy(s')
  {
    NextKeepsInv(s, s');
  }

  lemma ReachingKeepsHealthy(s: State, t: State)
    requires Healthy(s) && Reaches(s, t) && t.stop == s.stop && t.failure == s.failure
    requires t.cap.sourceError == s.cap.sourceError
    ensures Healthy(t)
  {
    ReachingKeepsInv(s, t);
  }

  /** Only the aggregate worker did something. */
  ghost predicate AggregateAlone(s: State, t: State) {
    && t.cap == s.cap && t.own == s.own && t.stop == s.stop && t.failure == s.failure
    && FlowsIn(t.agg.calls) + t.flows == FlowsIn(s.agg.calls) + s.flows
    && |s.snapshots| <= |t.snapshots|
  }

  function LastNow(calls: seq<Call>): Instant {
    if calls == [] then 0 else NowOf(calls[|calls| - 1])
  }

  lemma MonotoneAppend(calls: seq<Call>, call: Call)
    requires Monotone(calls) && NowOf(call) == LastNow(calls)
    ensures Monotone(calls + [call])
  {
  }

  /** An advance that cannot read the table. */
  function BlindAdvance(calls: seq<Call>): Call {
    AdvanceCall(Poisoned, (_: nat) => Poisoned, LastNow(calls))
  }

  function BlindRecord(calls: seq<Call>, flow: Flow): Call {
    FlowCall(flow, Reads(Poisoned, (_: nat) => Poisoned, Poisoned, Poisoned), LastNow(calls), 0)
  }

  /** Steps left until the aggregate worker is at the end of its loop. */
  function Distance(pc: AggregatePc): nat {
    match pc
    case PublishPeriodic(_) => 5
    case Top => 4
    case Advancing => 3
    case PublishChange(_) => 2
    case CheckTime(_) => 1
    case _ => 0
  }

  /** Steps left until the aggregate worker, with nothing to receive, is about to publish. */
  function PublishDistance(pc: AggregatePc): nat {
    if pc.Receiving? then 5 else if pc.PublishPeriodic? then 0 else Distance(pc)
  }

  /** A step on the way to `Receiving`, or from there, with nothing to receive, round the loop. */
  ghost function AggregateNext(s: State): State {
    match s.agg.pc
    case Top => s.(agg := s.agg.(pc := Advancing))
    case Advancing =>
      var calls := s.agg.calls + [BlindAdvance(s.agg.calls)];
      var pending := PendingBytes(calls);
      s.(agg := s.agg.(calls := calls, pc :=
        if (pending > 0) != s.agg.lastPublishedPending then PublishChange(pending) else CheckTime(pending)))
    case PublishChange(pending) =>
      if |s.snapshots| < SNAPSHOT_CHANNEL_CAPACITY then
        s.(agg := s.agg.(pc := CheckTime(pending), lastPublishedPending := pending > 0),
           snapshots := s.snapshots + [Published(s.agg.calls, pending)],
           published := s.published + [Published(s.agg.calls, pending)])
      else s.(agg := s.agg.(pc := CheckTime(pending)))
    case CheckTime(_) => s.(agg := s.agg.(pc := Receiving))
    case PublishPeriodic(pending) =>
      if |s.snapshots| < SNAPSHOT_CHANNEL_CAPACITY then
        s.(agg := s.agg.(pc := Top),
           snapshots := s.snapshots + [Published(s.agg.calls, pending)],
           published := s.published + [Published(s.agg.calls, pending)])
      else s.(agg := s.agg.(pc := Top))
    case _ => s.(agg := s.agg.(pc := Top))
  }

  /** Not stopped, with the aggregate worker in its loop. */
  ghost predicate Working(s: State) {
    Inv(s) && !s.stop && (Distance(s.agg.pc) > 0 || s.agg.pc.Receiving?)
  }

  lemma NextKeepsWorking(s: State, s': State)
    requires Working(s) && Next(s, s') && s'.stop == s.stop && (Distance(s'.agg.pc) > 0 || s'.agg.pc.Receiving?)
    ensures Working(s')
  {
    NextKeepsInv(s, s');
  }

  /** A healthy pipeline's aggregate worker is in its loop. */
  lemma InLoop(s: State)
    requires Healthy(s)
    ensures Working(s) && !s.cap.pc.CaptureGone? && !CaptureLeft(s.cap.pc)
  {
  }

  lemma AggregateGoesOn(s: State)
    requires Working(s) && (s.agg.pc.Receiving? ==> s.flows == [] && !s.cap.pc.CaptureGone?)
    ensures Next(s, AggregateNext(s)) && AggregateAlone(s, AggregateNext(s))
    ensures AggregateNext(s).flows == s.flows && AggregateNext(s).stop == s.stop
  {
    var pc := s.agg.pc;
    if pc.Advancing? {
      AdvanceGoesOn(s);
    } else if pc.PublishChange? || pc.PublishPeriodic? {
      PublishGoesOn(s);
    } else {
      OtherwiseGoesOn(s);
    }
  }

  lemma PublishGoesOn(s: State)
    requires !SnapshotsDropped(s) && (s.agg.pc.PublishChange? || s.agg.pc.PublishPeriodic?)
    ensures AggregateStep(s, AggregateNext(s)) && AggregateAlone(s, AggregateNext(s))
    ensures AggregateNext(s).flows == s.flows && AggregateNext(s).stop == s.stop
  {
  }

  lemma OtherwiseGoesOn(s: State)
    requires !s.stop && (s.agg.pc.Top? || s.agg.pc.CheckTime? || s.agg.pc.Receiving?)
    requires s.agg.pc.Receiving? ==> s.flows == [] && !s.cap.pc.CaptureGone?
    ensures AggregateStep(s, AggregateNext(s)) && AggregateAlone(s, AggregateNext(s))
    ensures AggregateNext(s).flows == s.flows && AggregateNext(s).stop == s.stop
  {
  }

  lemma AdvanceGoesOn(s: State)
    requires Monotone(s.agg.calls) && s.agg.pc.Advancing?
    ensures AggregateStep(s, AggregateNext(s)) && FlowsIn(AggregateNext(s).agg.calls) == FlowsIn(s.agg.calls)
  {
    var call := BlindAdvance(s.agg.calls);
    MonotoneAppend(s.agg.calls, call);
    FlowsInAppend(s.agg.calls, call);
    assert Advances(s.agg, AggregateNext(s).agg, call);
  }

  lemma NextIsCloser(s: State)
    requires Distance(s.agg.pc) > 0 || s.agg.pc.Receiving?
    ensures Distance(AggregateNext(s).agg.pc) > 0 || AggregateNext(s).agg.pc.Receiving?
    ensures !s.agg.pc.Receiving? ==> Distance(AggregateNext(s).agg.pc) < Distance(s.agg.pc)
    ensures !s.agg.pc.CheckTime? && !s.agg.pc.PublishPeriodic? ==>
              PublishDistance(AggregateNext(s).agg.pc) < PublishDistance(s.agg.pc)
  {
  }

  /** One step in the loop. */
  lemma AggregateSteps(s: State) returns (t: State)
    requires Working(s) && (s.agg.pc.Receiving? ==> s.flows == [] && !s.cap.pc.CaptureGone?)
    ensures t == AggregateNext(s) && Reaches(s, t) && Working(t) && AggregateAlone(s, t) && t.flows == s.flows
    ensures !s.agg.pc.Receiving? ==> Distance(t.agg.pc) < Distance(s.agg.pc)
    ensures !s.agg.pc.CheckTime? && !s.agg.pc.PublishPeriodic? ==>
              PublishDistance(t.agg.pc) < PublishDistance(s.agg.pc)
  {
    t := AggregateNext(s);
    NextIsCloser(s);
    AggregateGoesOn(s);
    NextKeepsWorking(s, t);
    ReachesItself(s);
    ReachesNext(s, s, t);
  }

  lemma {:induction false} AggregateReceives(s: State) returns (t: State)
    requires Working(s)
    ensures Reaches(s, t) && Working(t) && AggregateAlone(s, t) && t.flows == s.flows && t.agg.pc.Receiving?
    decreases Distance(s.agg.pc)
  {
    if s.agg.pc.Receiving? {
      ReachesItself(s);
      t := s;
    } else {
      var s' := AggregateSteps(s);
      t := AggregateReceives(s');
      ReachesOn(s, s', t);
    }
  }

  lemma FirstIsRecorded(s: State) returns (t: State)
    requires Working(s) && s.agg.pc.Receiving? && s.flows != []
    ensures Next(s, t) && AggregateAlone(s, t) && t.flows == s.flows[1..] && t.agg.pc.Top?
  {
    var call := BlindRecord(s.agg.calls, s.flows[0]);
    t := s.(agg := s.agg.(calls := s.agg.calls + [call], pc := Top), flows := s.flows[1..]);
    MonotoneAppend(s.agg.calls, call);
    FirstFlowMoves(s.agg.calls, call, s.flows);
    assert Records(s.agg, t.agg, call);
    assert AggregateStep(s, t);
  }

  /** Everything in the flow channel can be recorded. */
  lemma {:induction false} ChannelIsRecorded(s: State) returns (t: State)
    requires Working(s)
    ensures Reaches(s, t) && Working(t) && AggregateAlone(s, t) && t.flows == []
    decreases |s.flows|
  {
    if s.flows == [] {
      ReachesItself(s);
      t := s;
    } else {
      var r := AggregateReceives(s);
      var r' := FirstIsRecorded(r);
      NextKeepsWorking(r, r');
      ReachesNext(s, r, r');
      t := ChannelIsRecorded(r');
      ReachesOn(s, r', t);
    }
  }

  lemma TimeComes(s: State)
    requires s.agg.pc.CheckTime?
    ensures AggregateStep(s, s.(agg := s.agg.(pc := PublishPeriodic(s.agg.pc.pending))))
  {
  }

  lemma TimeToPublish(s: State) returns (t: State)
    requires Working(s) && s.agg.pc.CheckTime?
    ensures Reaches(s, t) && Working(t) && AggregateAlone(s, t) && t.flows == s.flows && t.agg.pc.PublishPeriodic?
  {
    t := s.(agg := s.agg.(pc := PublishPeriodic(s.agg.pc.pending)));
    TimeComes(s);
    NextKeepsWorking(s, t);
    ReachesItself(s);
    ReachesNext(s, s, t);
  }

  /** With an empty flow channel the aggregate worker can get to publish, whatever the pending bytes. */
  lemma {:induction false} AggregateComesToPublish(s: State) returns (t: State)
    requires Working(s) && s.flows == [] && !s.cap.pc.CaptureGone?
    ensures Reaches(s, t) && Working(t) && AggregateAlone(s, t) && t.flows == [] && t.agg.pc.PublishPeriodic?
    decreases PublishDistance(s.agg.pc)
  {
    if s.agg.pc.PublishPeriodic? {
      ReachesItself(s);
      t := s;
    } else if s.agg.pc.CheckTime? {
      t := TimeToPublish(s);
    } else {
      var s' := AggregateSteps(s);
      t := AggregateComesToPublish(s');
      ReachesOn(s, s', t);
    }
  }

  // ----- The capture worker hands on the flow it holds -----

  ghost predicate CaptureAlone(s: State, t: State) {
    && t.agg == s.agg && t.own == s.own && t.stop == s.stop && t.snapshots == s.snapshots && t.published == s.published
    && t.cap.captured == s.cap.captured
  }

  function HoldDistance(pc: CapturePc): nat {
    match pc
    case Announce(_) => 4
    case CloseReady(_) => 3
    case Hold(_) => 2
    case Offer(_) => 1
    case _ => 0
  }

  ghost function CaptureNext(s: State): State {
    match s.cap.pc
    case Announce(r) =>
      if s.cap.readyTxHeld
      then s.(cap := s.cap.(pc := CloseReady(r), announced := Some(ToReadiness(r))), ready := Some(ToReadiness(r)))
      else s.(cap := s.cap.(pc := AfterRead(r)))
    case CloseReady(r) => s.(cap := s.cap.(pc := AfterRead(r), readyTxHeld := false))
    case Hold(flow) => s.(cap := s.cap.(pc := Offer(flow)))
    case Offer(flow) => s.(cap := s.cap.(pc := CheckStop), flows := s.flows + [flow])
    case Judge(message) => s.(cap := s.cap.(pc := Fail(message)))
    case Fail(message) =>
      s.(cap := s.cap.(pc := LeaveReady), failure := SetOnce(s.failure, CaptureFailed(message)))
    case LeaveReady => s.(cap := s.cap.(pc := LeaveFlow, readyTxHeld := false))
    case _ => s.(cap := s.cap.(pc := CaptureGone))
  }

  lemma CaptureGoesOn(s: State)
    requires Inv(s) && !s.stop && (HoldDistance(s.cap.pc) > 0 || FailDistance(s.cap.pc) > 0)
    requires s.cap.pc.Offer? ==> s.flows == [] && !AggregateLeft(s.agg.pc)
    ensures Next(s, CaptureNext(s)) && CaptureAlone(s, CaptureNext(s))
    ensures CaptureNext(s).cap.sourceError == s.cap.sourceError
  {
    assert CaptureStep(s, CaptureNext(s));
  }

  lemma CaptureSteps(s: State) returns (t: State)
    requires Healthy(s) && s.flows == [] && Held(s.cap.pc) != []
    ensures t == CaptureNext(s) && Reaches(s, t) && Healthy(t) && CaptureAlone(s, t)
    ensures t.flows + Held(t.cap.pc) == Held(s.cap.pc) && HoldDistance(t.cap.pc) < HoldDistance(s.cap.pc)
  {
    InLoop(s);
    t := CaptureNext(s);
    CaptureGoesOn(s);
    NextKeepsHealthy(s, t);
    ReachesItself(s);
    ReachesNext(s, s, t);
  }

  /** The flow held can be handed on, once the flow channel is empty. */
  lemma {:induction false} HeldIsHandedOn(s: State) returns (t: State)
    requires Healthy(s) && s.flows == []
    ensures Reaches(s, t) && Healthy(t) && CaptureAlone(s, t) && Held(t.cap.pc) == [] && t.flows == Held(s.cap.pc)
    decreases HoldDistance(s.cap.pc)
  {
    if Held(s.cap.pc) == [] {
      ReachesItself(s);
      t := s;
    } else {
      var s' := CaptureSteps(s);
      if s'.flows != [] {
        t := s';
      } else {
        t := HeldIsHandedOn(s');
        ReachesOn(s, s', t);
      }
    }
  }

  // ----- Everything captured can still be delivered -----

  /** Everything captured so far has been recorded. */
  ghost predicate AllRecorded(s: State) {
    Healthy(s) && s.flows == [] && Held(s.cap.pc) == [] && FlowsIn(s.agg.calls) == s.cap.captured
  }

  lemma ChannelIsRecordedHealthily(s: State) returns (t: State)
    requires Healthy(s)
    ensures Reaches(s, t) && Healthy(t) && AggregateAlone(s, t) && t.flows == []
  {
    InLoop(s);
    t := ChannelIsRecorded(s);
    ReachingKeepsHealthy(s, t);
  }

  lemma CapturedCanBeRecorded(s: State) returns (t: State)
    requires Healthy(s)
    ensures Reaches(s, t) && AllRecorded(t) && t.cap.captured == s.cap.captured && t.own == s.own
  {
    var a := ChannelIsRecordedHealthily(s);
    var b := HeldIsHandedOn(a);
    ReachesOn(s, a, b);
    t := ChannelIsRecordedHealthily(b);
    ReachesOn(s, b, t);
    AllAccountedFor(t);
  }

  /** The last snapshot delivered reflects every flow captured. */
  ghost predicate AllDelivered(s: State) {
    && s.own.delivered != []
    && FlowsIn(s.own.delivered[|s.own.delivered| - 1].calls) == s.cap.captured
  }

  /** The aggregate worker is about to publish everything captured. */
  ghost predicate AboutToPublish(s: State) {
    Healthy(s) && s.agg.pc.PublishPeriodic? && FlowsIn(s.agg.calls) == s.cap.captured
  }

  lemma RecordedCanBePublished(s: State) returns (t: State)
    requires AllRecorded(s)
    ensures Reaches(s, t) && AboutToPublish(t) && t.cap.captured == s.cap.captured && t.own == s.own
  {
    InLoop(s);
    t := AggregateComesToPublish(s);
    ReachingKeepsHealthy(s, t);
  }

  /** The owner can empty the snapshot channel. */
  lemma OwnerMakesRoom(s: State) returns (t: State)
    requires Healthy(s)
    ensures Reaches(s, t) && Healthy(t) && OwnerAlone(s, t) && t.own.pc.Idle? && t.snapshots == []
    ensures t.own.errors == s.own.errors
  {
    var b := OwnerComesBack(s);
    ReachingKeepsHealthy(s, b);
    t := OwnerPolls(b);
    ReachesOn(s, b, t);
    ReachingKeepsHealthy(b, t);
  }

  lemma RecordedCanBeDelivered(s: State) returns (t: State)
    requires AllRecorded(s)
    ensures Reaches(s, t) && AllDelivered(t) && t.cap.captured == s.cap.captured && t.own.errors == s.own.errors
  {
    var a := RecordedCanBePublished(s);
    var c := OwnerMakesRoom(a);
    ReachesOn(s, a, c);
    t := PublishedIsDelivered(c);
    ReachesOn(s, c, t);
  }

  /** About to publish to an idle owner with an empty channel. */
  lemma PublishedIsDelivered(s: State) returns (t: State)
    requires AboutToPublish(s) && s.snapshots == [] && s.own.pc.Idle?
    ensures Reaches(s, t) && AllDelivered(t) && t.cap == s.cap && t.own.errors == s.own.errors
  {
    InLoop(s);
    var d := AggregateSteps(s);
    ReachingKeepsHealthy(s, d);
    t := OwnerPolls(d);
    ReachesOn(s, d, t);
    LastOfOne(s.own.delivered, Published(s.agg.calls, s.agg.pc.pending));
  }

  lemma LastOfOne<T>(s: seq<T>, x: T)
    ensures (s + [x])[|s + [x]| - 1] == x
  {
  }

  lemma CanStillBeDelivered(s: State) returns (t: State)
    requires Inv(s) && !s.stop && s.cap.sourceError.None?
    ensures Reaches(s, t) && AllDelivered(t) && t.cap.captured == s.cap.captured && t.own.errors == s.own.errors
  {
    var r := CapturedCanBeRecorded(s);
    t := RecordedCanBeDelivered(r);
    ReachesOn(s, r, t);
  }

  /**
   * From every moment of every run in which nothing was stopped and the source has not failed, there is a
   * continuation in which everything captured so far is recorded and delivered, and no error.
   */
  lemma CapturedCanStillBeDelivered(run: seq<State>) returns (run': seq<State>)
    requires IsRun(run)
    requires !run[|run| - 1].stop && run[|run| - 1].cap.sourceError.None?
    ensures IsRun(run') && IsPrefix(run, run')
    ensures var s, t := run[|run| - 1], run'[|run'| - 1];
            && t.cap.captured == s.cap.captured && t.own.errors == s.own.errors
            && t.own.delivered != []
            && FlowsIn(t.own.delivered[|t.own.delivered| - 1].calls) == s.cap.captured
  {
    var s := run[|run| - 1];
    LastHasInv(run, s);
    var t := CanStillBeDelivered(s);
    run' := RunGoesOn(run, s, t);
  }

  // ----- A source error can still be reported -----

  function FailDistance(pc: CapturePc): nat {
    match pc
    case Announce(_) => 6
    case CloseReady(_) => 5
    case Judge(_) => 4
    case Fail(_) => 3
    case LeaveReady => 2
    case LeaveFlow => 1
    case _ => 0
  }

  /** After a source error the capture worker can only set the failure and leave. */
  lemma FailedCaptureSteps(s: State) returns (t: State)
    requires Inv(s) && !s.stop && s.cap.sourceError.Some? && !s.cap.pc.CaptureGone?
    ensures Reaches(s, t) && Inv(t) && CaptureAlone(s, t) && t.flows == s.flows
    ensures t.cap.sourceError == s.cap.sourceError && FailDistance(t.cap.pc) < FailDistance(s.cap.pc)
  {
    t := CaptureNext(s);
    CaptureGoesOn(s);
    NextKeepsInv(s, t);
    ReachesItself(s);
    ReachesNext(s, s, t);
  }

  lemma {:induction false} FailedCaptureLeaves(s: State) returns (t: State)
    requires Inv(s) && !s.stop && s.cap.sourceError.Some?
    ensures Reaches(s, t) && Inv(t) && CaptureAlone(s, t) && t.flows == s.flows
    ensures t.cap.pc.CaptureGone? && t.failure == Some(CaptureFailed(s.cap.sourceError.value))
    decreases FailDistance(s.cap.pc)
  {
    if s.cap.pc.CaptureGone? {
      ReachesItself(s);
      t := s;
    } else {
      var s' := FailedCaptureSteps(s);
      t := FailedCaptureLeaves(s');
      ReachesOn(s, s', t);
    }
  }

  function LeaveDistance(pc: AggregatePc): nat {
    match pc
    case Receiving => 5
    case FlowsClosed => 4
    case CheckFailure => 3
    case LeaveSnapshots => 2
    case LeaveFlows => 1
    case _ => 0
  }

  ghost function LeaveNext(s: State): State {
    match s.agg.pc
    case Receiving => s.(agg := s.agg.(pc := FlowsClosed))
    case FlowsClosed => s.(agg := s.agg.(pc := CheckFailure))
    case CheckFailure => s.(agg := s.agg.(pc := LeaveSnapshots))
    case LeaveSnapshots => s.(agg := s.agg.(pc := LeaveFlows))
    case _ => s.(agg := s.agg.(pc := AggregateGone, abandoned := s.flows), flows := [])
  }

  /** The capture worker is gone after a failure, and everything it sent was received. */
  ghost predicate Deserted(s: State) {
    Inv(s) && !s.stop && s.cap.pc.CaptureGone? && s.failure.Some? && s.flows == []
  }

  lemma DesertedSteps(s: State) returns (t: State)
    requires Deserted(s) && LeaveDistance(s.agg.pc) > 0
    ensures Reaches(s, t) && Deserted(t) && t.cap == s.cap && t.own == s.own && t.failure == s.failure
    ensures LeaveDistance(t.agg.pc) < LeaveDistance(s.agg.pc)
    ensures t.agg.pc.AggregateGone? || LeaveDistance(t.agg.pc) > 0
  {
    t := LeaveNext(s);
    LeaveStep(s);
    NextKeepsInv(s, t);
    ReachesItself(s);
    ReachesNext(s, s, t);
  }

  lemma LeaveStep(s: State)
    requires LeaveDistance(s.agg.pc) > 0 && s.flows == [] && !s.stop && s.failure.Some? && s.cap.pc.CaptureGone?
    ensures Next(s, LeaveNext(s))
    ensures LeaveNext(s).flows == [] && LeaveNext(s).stop == s.stop && LeaveNext(s).failure == s.failure
    ensures LeaveNext(s).cap == s.cap && LeaveNext(s).own == s.own
    ensures LeaveDistance(LeaveNext(s).agg.pc) < LeaveDistance(s.agg.pc)
    ensures LeaveNext(s).agg.pc.AggregateGone? || LeaveDistance(LeaveNext(s).agg.pc) > 0
  {
    assert AggregateStep(s, LeaveNext(s));
  }

  lemma {:induction false} DesertedLeaves(s: State) returns (t: State)
    requires Deserted(s) && (s.agg.pc.AggregateGone? || LeaveDistance(s.agg.pc) > 0)
    ensures Reaches(s, t) && Deserted(t) && t.cap == s.cap && t.own == s.own && t.failure == s.failure
    ensures t.agg.pc.AggregateGone?
    decreases LeaveDistance(s.agg.pc)
  {
    if s.agg.pc.AggregateGone? {
      ReachesItself(s);
      t := s;
    } else {
      var s' := DesertedSteps(s);
      t := DesertedLeaves(s');
      ReachesOn(s, s', t);
    }
  }

  lemma AggregatePlaces(s: State)
    requires Inv(s) && !s.stop && !Working(s)
    ensures s.flows == [] && !s.agg.pc.Receiving? && (s.agg.pc.AggregateGone? || LeaveDistance(s.agg.pc) > 0)
  {
  }

  lemma AggregateFollows(s: State) returns (t: State)
    requires Inv(s) && !s.stop && s.cap.pc.CaptureGone? && s.failure.Some?
    ensures Reaches(s, t) && Deserted(t) && t.cap == s.cap && t.own == s.own && t.failure == s.failure
    ensures t.agg.pc.AggregateGone?
  {
    var b := s;
    ReachesItself(s);
    if Working(s) {
      var a := ChannelIsRecorded(s);
      b := AggregateReceives(a);
      ReachesOn(s, a, b);
    } else {
      AggregatePlaces(s);
    }
    t := DesertedLeaves(b);
    ReachesOn(s, b, t);
  }

  lemma CanStillBeReported(s: State) returns (t: State)
    requires Inv(s) && !s.stop && s.cap.sourceError.Some?
    ensures Reaches(s, t) && Inv(t) && !t.stop && t.cap.pc.CaptureGone? && t.agg.pc.AggregateGone? && t.flows == []
    ensures t.cap.captured == s.cap.captured
    ensures CaptureFailed(s.cap.sourceError.value) in t.own.errors
  {
    var a := FailedCaptureLeaves(s);
    var b := AggregateFollows(a);
    ReachesOn(s, a, b);
    var c := OwnerComesBack(b);
    ReachesOn(s, b, c);
    ReachingKeepsInv(s, c);
    t := OwnerPolls(c);
    ReachesOn(s, c, t);
    ReachingKeepsInv(s, t);
  }

  /**
   * From every moment before stop at which the source has failed, there is a continuation in which every
   * flow captured is recorded, both workers end, and the owner is given that error.
   */
  lemma SourceErrorCanStillBeReported(run: seq<State>, message: string) returns (run': seq<State>)
    requires IsRun(run)
    requires !run[|run| - 1].stop && run[|run| - 1].cap.sourceError == Some(message)
    ensures IsRun(run') && IsPrefix(run, run')
    ensures var s, t := run[|run| - 1], run'[|run'| - 1];
            && t.cap.pc.CaptureGone? && t.agg.pc.AggregateGone?
            && FlowsIn(t.agg.calls) == t.cap.captured == s.cap.captured
            && CaptureFailed(message) in t.own.errors
  {
    var s := run[|run| - 1];
    LastHasInv(run, s);
    var t := CanStillBeReported(s);
    AllAccountedFor(t);
    run' := RunGoesOn(run, s, t);
  }

  // ----- Stopping -----

  /** Flows read, and one more that a read under way may add. */
  function ReadSoon(c: Capture): nat {
    |c.captured| + if c.pc.Reading? then 1 else 0
  }

  /** Flows recorded, and one more that the loop under way may add. */
  ghost function RecordedSoon(a: Aggregate): nat {
    |FlowsIn(a.calls)| + if a.pc.Advancing? || a.pc.PublishChange? || a.pc.CheckTime? || a.pc.Receiving? then 1 else 0
  }

  /** A failure is recorded, or about to be. */
  predicate FailsSoon(s: State) {
    s.failure.Some? || s.cap.pc.Fail? || s.agg.pc.BlameConsumer? || s.agg.pc.BlameCapture?
      || s.agg.pc.CheckFailure?
  }

  lemma StoppedReads(s: State, s': State)
    requires s.stop && Next(s, s') && OwnerDropping(s.own.pc)
    ensures s'.stop && ReadSoon(s'.cap) <= ReadSoon(s.cap)
  {
  }

  lemma StoppedFails(s: State, s': State)
    requires s.stop && Next(s, s')
    ensures FailsSoon(s') ==> FailsSoon(s)
  {
  }

  /** After stop the capture worker offers at most the flow that it was about to offer. */
  lemma StoppedOffers(s: State, s': State)
    requires s.stop && CaptureStep(s, s')
    ensures s'.cap.pc.Offer? ==> s.cap.pc.Offer?
    ensures s'.flows != s.flows ==> s.cap.pc.Offer?
  {
  }

  lemma StoppedRecords(s: State, s': State)
    requires s.stop && AggregateStep(s, s')
    ensures RecordedSoon(s'.agg) <= RecordedSoon(s.agg)
  {
    if s.agg.pc.Advancing? {
      AdvanceMoves(s, s');
    } else if s.agg.pc.Receiving? {
      StoppedReceives(s, s');
    }
  }

  lemma StoppedReceives(s: State, s': State)
    requires s.agg.pc.Receiving? && AggregateStep(s, s')
    ensures RecordedSoon(s'.agg) <= RecordedSoon(s.agg)
  {
    if s.flows != [] {
      var call: Call :| call.FlowCall? && call.flow == s.flows[0] && Records(s.agg, s'.agg, call);
      FlowsInAppend(s.agg.calls, call);
    }
  }

  lemma StoppedStep(s: State, s': State)
    requires s.stop && Next(s, s') && OwnerDropping(s.own.pc)
    ensures s'.stop && ReadSoon(s'.cap) <= ReadSoon(s.cap) && RecordedSoon(s'.agg) <= RecordedSoon(s.agg)
    ensures FailsSoon(s') ==> FailsSoon(s)
    ensures s'.cap.pc.Offer? ==> s.cap.pc.Offer?
  {
    StoppedReads(s, s');
    StoppedFails(s, s');
    if AggregateStep(s, s') {
      StoppedRecords(s, s');
    } else if CaptureStep(s, s') {
      StoppedOffers(s, s');
    }
  }

  lemma StopIsDropping(run: seq<State>, i: nat)
    requires IsRun(run) && i < |run|
    ensures run[i].stop <==> OwnerDropping(run[i].own.pc)
  {
    RunKeepsInv(run, i);
  }

  /** One step of a stopped run. */
  lemma StoppedAt(run: seq<State>, k: nat)
    requires IsRun(run) && 0 < k < |run| && run[k - 1].stop
    ensures run[k].stop && ReadSoon(run[k].cap) <= ReadSoon(run[k - 1].cap)
    ensures RecordedSoon(run[k].agg) <= RecordedSoon(run[k - 1].agg)
    ensures FailsSoon(run[k]) ==> FailsSoon(run[k - 1])
    ensures run[k].cap.pc.Offer? ==> run[k - 1].cap.pc.Offer?
  {
    StopIsDropping(run, k - 1);
    assert StepsTo(run, k);
    StoppedStep(run[k - 1], run[k]);
  }

  lemma {:induction false} StoppedRun(run: seq<State>, i: nat, k: nat)
    requires IsRun(run) && i <= k < |run| && run[i].stop
    ensures run[k].stop && ReadSoon(run[k].cap) <= ReadSoon(run[i].cap)
    ensures RecordedSoon(run[k].agg) <= RecordedSoon(run[i].agg)
    ensures FailsSoon(run[k]) ==> FailsSoon(run[i])
    ensures run[k].cap.pc.Offer? ==> run[i].cap.pc.Offer?
    decreases k
  {
    if i < k {
      StoppedRun(run, i, k - 1);
      StoppedAt(run, k);
    }
  }

  /**
   * Once stop is signalled it stays; at most one more flow is captured and at most one more recorded; a
   * flow not yet on offer is never offered; and no failure is recorded that was not already under way.
   */
  lemma StopEndsTheWork(run: seq<State>, i: nat, k: nat)
    requires IsRun(run) && i <= k < |run| && run[i].stop
    ensures run[k].stop
    ensures |run[k].cap.captured| <= |run[i].cap.captured| + 1
    ensures |FlowsIn(run[k].agg.calls)| <= |FlowsIn(run[i].agg.calls)| + 1
    ensures !run[i].cap.pc.Offer? ==> !run[k].cap.pc.Offer?
    ensures !FailsSoon(run[i]) ==> run[k].failure.None?
  {
    StoppedRun(run, i, k);
  }

  // ----- Both workers can always leave after stop -----

  function StopDistance(pc: CapturePc): nat {
    match pc
    case Reading => 9
    case Announce(_) => 8
    case CloseReady(_) => 7
    case Offer(_) => 6
    case CheckStop => 5
    case Hold(_) => 5
    case Judge(_) => 5
    case Fail(_) => 4
    case LeaveReady => 2
    case LeaveFlow => 1
    case CaptureGone => 0
  }

  ghost function StopNext(s: State): State {
    match s.cap.pc
    case Reading =>
      var r := Item(None);
      s.(cap := s.cap.(pc := Announce(r), firstRead := if s.cap.firstRead.None? then Some(r) else s.cap.firstRead))
    case Announce(r) =>
      if s.cap.readyTxHeld then
        s.(cap := s.cap.(pc := CloseReady(r), announced := Some(ToReadiness(r))),
           ready := if s.own.pc.OwnerGone? then s.ready else Some(ToReadiness(r)))
      else s.(cap := s.cap.(pc := AfterRead(r)))
    case CloseReady(r) => s.(cap := s.cap.(pc := AfterRead(r), readyTxHeld := false))
    case Offer(flow) =>
      if s.agg.pc.AggregateGone? then s.(cap := s.cap.(pc := LeaveReady, lost := [flow]))
      else if |s.flows| < FLOW_CHANNEL_CAPACITY then s.(cap := s.cap.(pc := CheckStop), flows := s.flows + [flow])
      else s.(cap := s.cap.(pc := Hold(flow)))
    case Hold(flow) => s.(cap := s.cap.(pc := LeaveReady, lost := [flow]))
    case Fail(message) => s.(cap := s.cap.(pc := LeaveReady), failure := SetOnce(s.failure, CaptureFailed(message)))
    case LeaveReady => s.(cap := s.cap.(pc := LeaveFlow, readyTxHeld := false))
    case LeaveFlow => s.(cap := s.cap.(pc := CaptureGone))
    case _ => s.(cap := s.cap.(pc := LeaveReady))
  }

  lemma StopStep(s: State)
    requires s.stop && !s.cap.pc.CaptureGone? && SourceInv(s.cap)
    ensures Next(s, StopNext(s)) && StopNext(s).stop
    ensures StopDistance(StopNext(s).cap.pc) < StopDistance(s.cap.pc)
  {
    var t := StopNext(s);
    if s.cap.pc.Reading? {
      assert s.cap.captured + Held(t.cap.pc) == s.cap.captured;
      assert Pipelines.Reads(s.cap, t.cap, Item(None));
    }
    assert CaptureStep(s, t);
  }

  lemma StoppedCaptureSteps(s: State) returns (t: State)
    requires Inv(s) && s.stop && !s.cap.pc.CaptureGone?
    ensures Reaches(s, t) && Inv(t) && t.stop && StopDistance(t.cap.pc) < StopDistance(s.cap.pc)
  {
    t := StopNext(s);
    StopStep(s);
    NextKeepsInv(s, t);
    ReachesItself(s);
    ReachesNext(s, s, t);
  }

  lemma {:induction false} StoppedCaptureLeaves(s: State) returns (t: State)
    requires Inv(s) && s.stop
    ensures Reaches(s, t) && Inv(t) && t.stop && t.cap.pc.CaptureGone?
    decreases StopDistance(s.cap.pc)
  {
    if s.cap.pc.CaptureGone? {
      ReachesItself(s);
      t := s;
    } else {
      var s' := StoppedCaptureSteps(s);
      t := StoppedCaptureLeaves(s');
      ReachesOn(s, s', t);
    }
  }

  function EndDistance(pc: AggregatePc): nat {
    match pc
    case Advancing => 9
    case PublishChange(_) => 8
    case CheckTime(_) => 7
    case PublishPeriodic(_) => 6
    case Receiving => 6
    case Top => 5
    case SnapshotsClosed => 5
    case FlowsClosed => 5
    case CheckFailure => 4
    case LeaveSnapshots => 2
    case LeaveFlows => 1
    case _ => 0
  }

  /** The way out of the loop after stop, for a worker that finds the flow channel closed or the consumer gone. */
  ghost function EndNext(s: State): State {
    match s.agg.pc
    case PublishChange(_) =>
      if SnapshotsDropped(s) then s.(agg := s.agg.(pc := SnapshotsClosed)) else AggregateNext(s)
    case PublishPeriodic(_) =>
      if SnapshotsDropped(s) then s.(agg := s.agg.(pc := SnapshotsClosed)) else AggregateNext(s)
    case Advancing => AggregateNext(s)
    case CheckTime(_) => AggregateNext(s)
    case Receiving =>
      if s.flows == [] then LeaveNext(s)
      else s.(agg := s.agg.(calls := s.agg.calls + [BlindRecord(s.agg.calls, s.flows[0])], pc := Top),
              flows := s.flows[1..])
    case LeaveSnapshots => LeaveNext(s)
    case LeaveFlows => LeaveNext(s)
    case _ => s.(agg := s.agg.(pc := LeaveSnapshots))
  }

  lemma EndIsCloser(s: State)
    requires !s.agg.pc.AggregateGone? && !s.agg.pc.BlameConsumer? && !s.agg.pc.BlameCapture?
    ensures EndDistance(EndNext(s).agg.pc) < EndDistance(s.agg.pc)
    ensures EndNext(s).stop == s.stop && EndNext(s).cap == s.cap
  {
  }

  lemma StoppedAggregateGoesOn(s: State)
    requires ExitInv(s) && Monotone(s.agg.calls) && s.stop && s.cap.pc.CaptureGone? && !s.agg.pc.AggregateGone?
    ensures Next(s, EndNext(s))
  {
    if s.agg.pc.Advancing? {
      AdvanceGoesOn(s);
    } else if s.agg.pc.Receiving? && s.flows != [] {
      var call := BlindRecord(s.agg.calls, s.flows[0]);
      MonotoneAppend(s.agg.calls, call);
      assert Records(s.agg, EndNext(s).agg, call);
      assert AggregateStep(s, EndNext(s));
    } else {
      assert AggregateStep(s, EndNext(s));
    }
  }

  lemma StoppedAggregateSteps(s: State) returns (t: State)
    requires Inv(s) && s.stop && s.cap.pc.CaptureGone? && !s.agg.pc.AggregateGone?
    ensures Reaches(s, t) && Inv(t) && t.stop && t.cap.pc.CaptureGone?
    ensures EndDistance(t.agg.pc) < EndDistance(s.agg.pc)
  {
    t := EndNext(s);
    EndIsCloser(s);
    StoppedAggregateGoesOn(s);
    NextKeepsInv(s, t);
    ReachesItself(s);
    ReachesNext(s, s, t);
  }

  lemma {:induction false} StoppedAggregateLeaves(s: State) returns (t: State)
    requires Inv(s) && s.stop && s.cap.pc.CaptureGone?
    ensures Reaches(s, t) && Inv(t) && t.cap.pc.CaptureGone? && t.agg.pc.AggregateGone?
    decreases EndDistance(s.agg.pc)
  {
    if s.agg.pc.AggregateGone? {
      ReachesItself(s);
      t := s;
    } else {
      var s' := StoppedAggregateSteps(s);
      t := StoppedAggregateLeaves(s');
      ReachesOn(s, s', t);
    }
  }

  /** From every moment after stop, both workers can end, whatever the owner has already dropped. */
  lemma StoppedWorkersCanStillEnd(run: seq<State>) returns (run': seq<State>)
    requires IsRun(run) && run[|run| - 1].stop
    ensures IsRun(run') && IsPrefix(run, run')
    ensures run'[|run'| - 1].cap.pc.CaptureGone? && run'[|run'| - 1].agg.pc.AggregateGone?
  {
    var s := run[|run| - 1];
    LastHasInv(run, s);
    var a := StoppedCaptureLeaves(s);
    var t := StoppedAggregateLeaves(a);
    ReachesOn(s, a, t);
    run' := RunGoesOn(run, s, t);
  }

  // ----- How full the channels get -----

  /** One more packet with a flow goes into the flow channel while the aggregate worker does nothing. */
  lemma OneMoreFlowWaits(s: State, flow: Flow) returns (t: State)
    requires s.cap.pc.CheckStop? && !s.cap.readyTxHeld && !s.stop && !s.agg.pc.AggregateGone?
    requires |s.flows| < 8192 && WellFormed(flow)
    ensures Reaches(s, t) && t.flows == s.flows + [flow]
    ensures t.cap.pc.CheckStop? && !t.cap.readyTxHeld && t.stop == s.stop && t.agg == s.agg
  {
    var r := Item(Some(flow));
    var s1 := s.(cap := s.cap.(pc := Reading));
    var s2 := s1.(cap := s1.cap.(pc := Announce(r), captured := s1.cap.captured + [flow],
                                 firstRead := if s1.cap.firstRead.None? then Some(r) else s1.cap.firstRead));
    var s3 := s2.(cap := s2.cap.(pc := Hold(flow)));
    var s4 := s3.(cap := s3.cap.(pc := Offer(flow)));
    t := s4.(cap := s4.cap.(pc := CheckStop), flows := s4.flows + [flow]);
    assert Pipelines.Reads(s1.cap, s2.cap, r);
    assert CaptureStep(s, s1) && CaptureStep(s1, s2) && CaptureStep(s2, s3);
    assert CaptureStep(s3, s4) && CaptureStep(s4, t);
    ReachesItself(s);
    ReachesNext(s, s, s1);
    ReachesNext(s, s1, s2);
    ReachesNext(s, s2, s3);
    ReachesNext(s, s3, s4);
    ReachesNext(s, s4, t);
  }

  lemma {:induction false} FlowsWait(flow: Flow, n: nat) returns (t: State)
    requires WellFormed(flow) && n <= 8192
    ensures Reaches(AFTER_FIRST_READ, t) && |t.flows| == n
    ensures t.cap.pc.CheckStop? && !t.cap.readyTxHeld && !t.stop && t.agg == AFTER_FIRST_READ.agg
  {
    if n == 0 {
      ReachesItself(AFTER_FIRST_READ);
      t := AFTER_FIRST_READ;
    } else {
      var s := FlowsWait(flow, n - 1);
      t := OneMoreFlowWaits(s, flow);
      ReachesOn(AFTER_FIRST_READ, s, t);
    }
  }

  /** The flow channel takes 8192 flows, and the snapshot channel two snapshots. */
  lemma ChannelsFill(flow: Flow) returns (run: seq<State>, other: seq<State>)
    requires WellFormed(flow)
    ensures IsRun(run) && |run[|run| - 1].flows| == 8192
    ensures IsRun(other) && |other[|other| - 1].snapshots| == 2
  {
    var first := FirstReadRun();
    var t := FlowsWait(flow, 8192);
    run := RunGoesOn(first, AFTER_FIRST_READ, t);
    StartHasInv();
    assert Working(START);
    var s := AggregateComesToPublish(START);
    var s' := AggregateSteps(s);
    ReachesOn(START, s, s');
    other := RunGoesOn([START], START, s');
    LastHasInv(other, s');
    TwoSnapshots(s);
  }

  lemma TwoSnapshots(s: State)
    requires s.agg.pc.PublishPeriodic? && 1 <= |s.snapshots| <= 2
    ensures |AggregateNext(s).snapshots| == 2
  {
  }
}
