/** Switching interfaces: an active pipeline, a fallback while the new one is unproven, and a pending opening. */
module Sessions {
  import opened Net
  import P = Pipelines

  datatype Activation = Activated | Pending | Unchanged

  datatype ActiveCapture = ActiveCapture(interface: string, pipeline: P.State)

  /** An opened pipeline, and whether its readiness message was already taken. */
  datatype Prepared = Prepared(pipeline: P.State, ready: bool)

  /** `result` is the one message of the opening worker; `workerGone` once it ended without one. */
  datatype PendingActivation = PendingActivation(
    interface: string, result: Option<Result<Prepared, string>>, workerGone: bool)

  datatype SessionState = SessionState(
    active: Option<ActiveCapture>, fallback: Option<ActiveCapture>, pending: Option<PendingActivation>)

  function InterfaceOf(a: Option<ActiveCapture>): Option<string> {
    if a.Some? then Some(a.value.interface) else None
  }

  // ----- The pipelines a session owns -----

  ghost predicate Reachable(p: P.State) {
    exists run :: P.IsRun(run) && run[|run| - 1] == p
  }

  /** A pipeline the owner has not stopped, in a state some run reaches. */
  ghost predicate Live(p: P.State) {
    P.Inv(p) && !p.stop
  }

  /** The pipeline goes on working; the owner may read snapshots but not readiness. */
  ghost predicate Works(p: P.State, p': P.State) {
    && P.Next(p, p') && !p'.stop
    && p'.own.readinessTaken == p.own.readinessTaken && !p'.own.pc.ReadinessClosed?
  }

  lemma WorksKeepsLive(p: P.State, p': P.State)
    requires Live(p) && Works(p, p')
    ensures Live(p')
  {
    P.NextKeepsInv(p, p');
  }

  lemma TakingReadinessKeepsLive(p: P.State)
    requires Live(p) && P.PollReadiness(p).Message?
    ensures Live(P.TakeReadiness(p))
  {
    assert P.Stream(P.TakeReadiness(p)) == P.Stream(p);
  }

  lemma ReachableIsLive(p: P.State)
    requires Reachable(p) && !p.stop
    ensures Live(p)
  {
    var run :| P.IsRun(run) && run[|run| - 1] == p;
    P.LastHasInv(run, p);
  }

  /** What watching a new pipeline for an early failure makes of it. */
  ghost predicate Watched(p: P.State, result: Result<Prepared, string>) {
    && Reachable(p) && !p.stop && !p.own.readinessTaken
    && match P.PollReadiness(p) {
         case Message(Success(_)) => result == Success(Prepared(P.TakeReadiness(p), true))
         case StillEmpty => result == Success(Prepared(p, false))
         case _ => false
       }
  }

  /** What the opening worker may send. */
  ghost predicate OpeningResult(result: Result<Prepared, string>) {
    result.Failure? || exists p :: Watched(p, result)
  }

  // ----- The session's operations -----

  /** `begin_activate`: `resolved` is the selector's interface, `spawned` whether the worker started. */
  predicate Begins(s: SessionState, resolved: Result<string, string>, spawned: bool) {
    resolved.Success? && InterfaceOf(s.active) != Some(resolved.value) && s.pending.None? && spawned
  }

  function AfterBegin(s: SessionState, resolved: Result<string, string>, spawned: bool): SessionState {
    if Begins(s, resolved, spawned)
    then s.(fallback := None, pending := Some(PendingActivation(resolved.value, None, false)))
    else s
  }

  predicate Arrived(p: PendingActivation) {
    p.result.Some? || p.workerGone
  }

  function AfterPollActivation(s: SessionState): SessionState {
    if s.pending.None? || !Arrived(s.pending.value) then s
    else
      match s.pending.value.result
      case Some(Success(prepared)) =>
        SessionState(
          Some(ActiveCapture(s.pending.value.interface, prepared.pipeline)),
          if prepared.ready then s.fallback else s.active,
          None)
      case _ => s.(pending := None)
  }

  function AfterPollReadiness(s: SessionState): SessionState {
    if s.active.None? || s.fallback.None? then s
    else
      var taken := Some(s.active.value.(pipeline := P.TakeReadiness(s.active.value.pipeline)));
      match P.PollReadiness(s.active.value.pipeline)
      case Message(Success(_)) => s.(active := taken, fallback := None)
      case StillEmpty => s
      case _ => s.(active := s.fallback, fallback := None)
  }

  /** The poll gives the active pipeline up for the fallback. */
  predicate Reverts(s: SessionState) {
    && s.active.Some? && s.fallback.Some?
    && var polled := P.PollReadiness(s.active.value.pipeline);
       polled.Closed? || (polled.Message? && polled.readiness.Failure?)
  }

  /** `activate`: opens in the foreground; `prepared` is what the early watch left of the new pipeline. */
  function AfterActivate(s: SessionState, interface: string, prepared: Prepared): SessionState {
    if InterfaceOf(s.active) == Some(interface) then s
    else s.(active := Some(ActiveCapture(interface, prepared.pipeline)))
  }

  class TrafficSession {
    var active: Option<ActiveCapture>
    var fallback: Option<ActiveCapture>
    var pending: Option<PendingActivation>

    ghost function View(): SessionState
      reads this
    {
      SessionState(active, fallback, pending)
    }

    constructor ()
      ensures View() == SessionState(None, None, None)
    {
      active, fallback, pending := None, None, None;
    }

    method BeginActivateWith(resolved: Result<string, string>, spawned: bool) returns (r: Result<Activation, string>)
      modifies this
      ensures View() == AfterBegin(old(View()), resolved, spawned)
      ensures r == Success(Pending) <==>
                resolved.Success? && InterfaceOf(old(active)) != Some(resolved.value) && old(pending).None? && spawned
      ensures active == old(active)
      ensures fallback == if r == Success(Pending) then None else old(fallback)
      ensures pending == if r == Success(Pending) then Some(PendingActivation(resolved.value, None, false))
                         else old(pending)
      ensures r == Success(Unchanged) <==> resolved.Success? && InterfaceOf(old(active)) == Some(resolved.value)
      ensures r.Failure? <==> r != Success(Pending) && r != Success(Unchanged)
    {
      if resolved.Failure? {
        return Failure(resolved.error);
      }
      if InterfaceOf(active) == Some(resolved.value) {
        return Success(Unchanged);
      }
      if pending.Some? {
        return Failure("an interface activation is already in progress");
      }
      if !spawned {
        return Failure("spawn failed");
      }
      fallback := None;
      pending := Some(PendingActivation(resolved.value, None, false));
      return Success(Pending);
    }

    /** `started` is what starting the pipeline and watching it for an early failure gave. */
    method ActivateWith(resolved: Result<string, string>, started: Result<Prepared, string>)
      returns (r: Result<Activation, string>)
      modifies this
      ensures View() == if resolved.Success? && started.Success?
                        then AfterActivate(old(View()), resolved.value, started.value) else old(View())
      ensures r == Success(Unchanged) <==> resolved.Success? && InterfaceOf(old(active)) == Some(resolved.value)
      ensures r == Success(Activated) <==>
                resolved.Success? && started.Success? && InterfaceOf(old(active)) != Some(resolved.value)
      ensures fallback == old(fallback) && pending == old(pending)
      ensures active == if r == Success(Activated) then Some(ActiveCapture(resolved.value, started.value.pipeline))
                        else old(active)
    {
      if resolved.Failure? {
        return Failure(resolved.error);
      }
      if InterfaceOf(active) == Some(resolved.value) {
        return Success(Unchanged);
      }
      if started.Failure? {
        return Failure(started.error);
      }
      active := Some(ActiveCapture(resolved.value, started.value.pipeline));
      return Success(Activated);
    }

    method PollActivation() returns (r: Option<Result<Activation, string>>)
      modifies this
      ensures View() == AfterPollActivation(old(View()))
      ensures r.Some? <==> old(pending).Some? && (old(pending).value.result.Some? || old(pending).value.workerGone)
      ensures r == Some(Success(Activated)) <==>
                old(pending).Some? && old(pending).value.result.Some? && old(pending).value.result.value.Success?
      ensures r.Some? ==> r.value.Failure? || r.value == Success(Activated)
      ensures pending == if r.Some? then None else old(pending)
      ensures r == Some(Success(Activated)) ==>
                var prepared := old(pending).value.result.value.value;
                && active == Some(ActiveCapture(old(pending).value.interface, prepared.pipeline))
                && fallback == if prepared.ready then old(fallback) else old(active)
      ensures r != Some(Success(Activated)) ==> active == old(active) && fallback == old(fallback)
    {
      if pending.None? || !Arrived(pending.value) {
        return None;
      }
      var opening := pending.value;
      pending := None;
      if opening.result.None? {
        return Some(Failure("interface activation worker stopped unexpectedly"));
      }
      match opening.result.value {
        case Failure(error) => return Some(Failure(error));
        case Success(prepared) =>
          var previous := active;
          active := Some(ActiveCapture(opening.interface, prepared.pipeline));
          if !prepared.ready {
            fallback := previous;
          }
          return Some(Success(Activated));
      }
    }

    /** `closedError` is what the failure cell holds when the readiness channel turns out closed. */
    method PollCaptureReadiness(closedError: P.PipelineError) returns (r: Option<P.PipelineError>)
      modifies this
      ensures View() == AfterPollReadiness(old(View()))
      ensures r.Some? <==> Reverts(old(View()))
      ensures pending == old(pending)
      ensures r.Some? ==> active == old(fallback) && fallback == None
      ensures r.None? ==> InterfaceOf(active) == InterfaceOf(old(active))
      ensures r.None? ==>
                fallback == if old(active).Some? && P.PollReadiness(old(active).value.pipeline).Message? then None
                            else old(fallback)
      ensures r.Some? && P.PollReadiness(old(active).value.pipeline).Message? ==>
                r.value == P.PollReadiness(old(active).value.pipeline).readiness.error
      ensures r.Some? && P.PollReadiness(old(active).value.pipeline).Closed? ==> r.value == closedError
    {
      if active.None? || fallback.None? {
        return None;
      }
      var polled := P.PollReadiness(active.value.pipeline);
      match polled {
        case StillEmpty => return None;
        case Closed =>
          active, fallback := fallback, None;
          return Some(closedError);
        case Message(Success(_)) =>
          active := Some(active.value.(pipeline := P.TakeReadiness(active.value.pipeline)));
          fallback := None;
          return None;
        case Message(Failure(error)) =>
          active, fallback := fallback, None;
          return Some(error);
      }
    }
  }

  // ----- Runs of a session -----

  /** A session with the interface that was active just before the last successful switch. */
  datatype Traced = Traced(s: SessionState, previous: Option<string>)

  /** Pipelines keep working, and the opening worker may answer or end, between operations. */
  ghost predicate Environment(s: SessionState, s': SessionState) {
    || (exists p ::
          s.active.Some? && Works(s.active.value.pipeline, p)
          && s' == s.(active := Some(s.active.value.(pipeline := p))))
    || (exists p ::
          s.fallback.Some? && Works(s.fallback.value.pipeline, p)
          && s' == s.(fallback := Some(s.fallback.value.(pipeline := p))))
    || (s.pending.Some? && !Arrived(s.pending.value)
        && exists pending :: Answers(s.pending.value, pending) && s' == s.(pending := Some(pending)))
    || (exists prepared: Prepared ::
          && s.pending.Some? && s.pending.value.result.Some? && s.pending.value.result.value.Success?
          && Works(s.pending.value.result.value.value.pipeline, prepared.pipeline)
          && prepared.ready == s.pending.value.result.value.value.ready
          && s' == s.(pending := Some(s.pending.value.(result := Some(Success(prepared))))))
  }

  ghost predicate Answers(p: PendingActivation, p': PendingActivation) {
    || p' == p.(workerGone := true)
    || exists result :: OpeningResult(result) && p' == p.(result := Some(result))
  }

  ghost predicate Next(t: Traced, t': Traced) {
    || (Environment(t.s, t'.s) && t'.previous == t.previous)
    || (exists resolved, spawned :: t' == t.(s := AfterBegin(t.s, resolved, spawned)))
    || (t'.s == AfterPollActivation(t.s)
        && t'.previous == if Switches(t.s) then InterfaceOf(t.s.active) else t.previous)
    || t' == t.(s := AfterPollReadiness(t.s))
  }

  /** The poll finds a successfully opened pipeline. */
  predicate Switches(s: SessionState) {
    s.pending.Some? && s.pending.value.result.Some? && s.pending.value.result.value.Success?
  }

  /** A session whose only foreground activation, if any, came before everything else. */
  ghost predicate Init(t: Traced) {
    && t.s.fallback.None? && t.s.pending.None?
    && (t.s.active.Some? ==> Live(t.s.active.value.pipeline))
  }

  ghost predicate StepsTo(run: seq<Traced>, i: nat) {
    0 < i < |run| ==> Next(run[i - 1], run[i])
  }

  ghost predicate Continues(t: Traced, run: seq<Traced>) {
    run != [] && run[0] == t && forall i: nat :: StepsTo(run, i)
  }

  ghost predicate IsRun(run: seq<Traced>) {
    run != [] && Init(run[0]) && Continues(run[0], run)
  }

  ghost predicate Inv(t: Traced) {
    var s := t.s;
    && !(s.pending.Some? && s.fallback.Some?)
    && (s.active.Some? ==> Live(s.active.value.pipeline))
    && (s.fallback.Some? ==>
          && Live(s.fallback.value.pipeline)
          && s.active.Some? && !s.active.value.pipeline.own.readinessTaken
          && t.previous == Some(s.fallback.value.interface))
    && (Switches(s) ==>
          var prepared := s.pending.value.result.value.value;
          Live(prepared.pipeline) && prepared.ready == prepared.pipeline.own.readinessTaken)
  }

  /** The active interface differs from the fallback's and from the one being opened. */
  predicate Apart(s: SessionState) {
    && !(s.pending.Some? && s.fallback.Some?)
    && (s.fallback.Some? ==> InterfaceOf(s.active) != InterfaceOf(s.fallback))
    && (s.pending.Some? ==> InterfaceOf(s.active) != Some(s.pending.value.interface))
  }

  lemma EnvironmentKeepsInv(t: Traced, t': Traced)
    requires Inv(t) && Environment(t.s, t'.s) && t'.previous == t.previous
    ensures Inv(t')
  {
    var s, s' := t.s, t'.s;
    if s'.active != s.active {
      WorksKeepsLive(s.active.value.pipeline, s'.active.value.pipeline);
    } else if s'.fallback != s.fallback {
      WorksKeepsLive(s.fallback.value.pipeline, s'.fallback.value.pipeline);
    } else if s.pending.Some? && s'.pending != s.pending && !Arrived(s.pending.value) {
      if Switches(s') {
        OpenedIsLive(s'.pending.value.result.value);
      }
    } else if s'.pending != s.pending {
      WorksKeepsLive(s.pending.value.result.value.value.pipeline, s'.pending.value.result.value.value.pipeline);
    }
  }

  lemma WatchedIsLive(p: P.State, result: Result<Prepared, string>)
    requires Watched(p, result)
    ensures result.Success?
    ensures Live(result.value.pipeline) && result.value.ready == result.value.pipeline.own.readinessTaken
  {
    ReachableIsLive(p);
    if P.PollReadiness(p).Message? {
      TakingReadinessKeepsLive(p);
    }
  }

  lemma OpenedIsLive(result: Result<Prepared, string>)
    requires OpeningResult(result) && result.Success?
    ensures Live(result.value.pipeline) && result.value.ready == result.value.pipeline.own.readinessTaken
  {
    var p :| Watched(p, result);
    WatchedIsLive(p, result);
  }

  lemma PollKeepsInv(t: Traced)
    requires Inv(t)
    ensures Inv(t.(s := AfterPollReadiness(t.s)))
  {
    if t.s.active.Some? && P.PollReadiness(t.s.active.value.pipeline).Message? {
      TakingReadinessKeepsLive(t.s.active.value.pipeline);
    }
  }

  lemma BeginKeepsInv(t: Traced, resolved: Result<string, string>, spawned: bool)
    requires Inv(t)
    ensures Inv(t.(s := AfterBegin(t.s, resolved, spawned)))
  {
  }

  lemma SwitchKeepsInv(t: Traced)
    requires Inv(t)
    ensures Inv(Traced(AfterPollActivation(t.s), if Switches(t.s) then InterfaceOf(t.s.active) else t.previous))
  {
  }

  lemma NextKeepsInv(t: Traced, t': Traced)
    requires Inv(t) && Next(t, t')
    ensures Inv(t')
  {
    if Environment(t.s, t'.s) && t'.previous == t.previous {
      EnvironmentKeepsInv(t, t');
    } else if t' == t.(s := AfterPollReadiness(t.s)) {
      PollKeepsInv(t);
    } else if resolved, spawned :| t' == t.(s := AfterBegin(t.s, resolved, spawned)) {
      BeginKeepsInv(t, resolved, spawned);
    } else {
      SwitchKeepsInv(t);
    }
  }

  lemma {:induction false} ContinuingKeepsInv(t: Traced, run: seq<Traced>, i: nat)
    requires Inv(t) && Continues(t, run) && i < |run|
    ensures Inv(run[i])
  {
    if i > 0 {
      ContinuingKeepsInv(t, run, i - 1);
      assert StepsTo(run, i);
      NextKeepsInv(run[i - 1], run[i]);
    }
  }

  lemma NextKeepsApart(t: Traced, t': Traced)
    requires Apart(t.s) && Next(t, t')
    ensures Apart(t'.s)
  {
  }

  lemma {:induction false} RunKeepsApart(run: seq<Traced>, i: nat)
    requires IsRun(run) && i < |run|
    ensures Apart(run[i].s)
  {
    if i > 0 {
      RunKeepsApart(run, i - 1);
      assert StepsTo(run, i);
      NextKeepsApart(run[i - 1], run[i]);
    }
  }

  // ----- Results over whole runs -----

  /**
   * A readiness poll meets no closed channel while a fallback waits, reverts exactly when the active
   * source's first read failed and was announced, and then restores the interface that was active
   * just before the last switch; a poll that does not revert leaves the interface as it is.
   */
  ghost predicate RevertsHonestly(t: Traced) {
    var restored := InterfaceOf(AfterPollReadiness(t.s).active);
    t.s.fallback.Some? ==>
      && t.s.active.Some?
      && var cap := t.s.active.value.pipeline.cap;
      && !P.PollReadiness(t.s.active.value.pipeline).Closed?
      && (Reverts(t.s) <==> cap.announced.Some? && cap.firstRead.Some? && cap.firstRead.value.Broken?)
      && restored == (if Reverts(t.s) then t.previous else InterfaceOf(t.s.active))
      && restored.Some?
  }

  lemma InvRevertsHonestly(t: Traced)
    requires Inv(t)
    ensures RevertsHonestly(t) && !(t.s.pending.Some? && t.s.fallback.Some?)
  {
    if t.s.fallback.Some? {
      P.ReadinessIsFirstRead(t.s.active.value.pipeline);
    }
  }

  /**
   * At every moment of every run a readiness poll reverts honestly, to another interface than the
   * active one, and without a fallback it changes nothing.
   */
  lemma RevertsExactlyOnFirstReadFailure(run: seq<Traced>, i: nat)
    requires IsRun(run) && i < |run|
    ensures RevertsHonestly(run[i])
    ensures !(run[i].s.pending.Some? && run[i].s.fallback.Some?)
    ensures Reverts(run[i].s) ==> InterfaceOf(AfterPollReadiness(run[i].s).active) != InterfaceOf(run[i].s.active)
    ensures run[i].s.fallback.None? ==> AfterPollReadiness(run[i].s) == run[i].s
  {
    ContinuingKeepsInv(run[0], run, i);
    RunKeepsApart(run, i);
    InvRevertsHonestly(run[i]);
  }

  // ----- Activating in the foreground -----

  function Foreground(t: Traced, interface: string, prepared: Prepared): Traced {
    Traced(AfterActivate(t.s, interface, prepared), InterfaceOf(t.s.active))
  }

  /** A pipeline that the early watch lets through. */
  ghost predicate Opens(prepared: Prepared) {
    OpeningResult(Success(prepared))
  }

  /**
   * A foreground activation of another interface, from any state that the invariant allows: every
   * later readiness poll reverts honestly, whatever pipeline was opened and whatever follows, exactly
   * when no fallback waits. The activation replaces the active pipeline without dropping the fallback.
   */
  lemma ForegroundActivationNeedsNoFallback(t: Traced, interface: string)
    requires Inv(t) && InterfaceOf(t.s.active) != Some(interface)
    ensures (forall prepared, run, i: nat ::
               Opens(prepared) && Continues(Foreground(t, interface, prepared), run) && i < |run|
               ==> RevertsHonestly(run[i]))
            <==> t.s.fallback.None?
  {
    if t.s.fallback.None? {
      forall prepared, run, i: nat
        | Opens(prepared) && Continues(Foreground(t, interface, prepared), run) && i < |run|
        ensures RevertsHonestly(run[i])
      {
        OpenedIsLive(Success(prepared));
        ContinuingKeepsInv(Foreground(t, interface, prepared), run, i);
        InvRevertsHonestly(run[i]);
      }
    } else {
      var prepared := HealthyOpening();
      var t' := Foreground(t, interface, prepared);
      assert Continues(t', [t']) && !RevertsHonestly([t'][0]);
    }
  }

  /** A pipeline whose first read succeeded, whose message the early watch took, and whose sender is gone. */
  lemma HealthyOpening() returns (prepared: Prepared)
    ensures Opens(prepared) && P.PollReadiness(prepared.pipeline) == P.Closed
    ensures prepared.pipeline.cap.sourceError.None? && prepared.pipeline.failure.None?
  {
    var run := P.FirstReadRun();
    assert Reachable(P.AFTER_FIRST_READ);
    prepared := Prepared(P.TakeReadiness(P.AFTER_FIRST_READ), true);
    assert Watched(P.AFTER_FIRST_READ, Success(prepared));
  }

  lemma OpensAtOnce()
    ensures Live(P.START) && OpeningResult(Success(Prepared(P.START, false)))
  {
    P.StartHasInv();
    assert P.IsRun([P.START]) && [P.START][0] == P.START;
    assert Watched(P.START, Success(Prepared(P.START, false)));
  }

  /** A run that switches between two interfaces and still keeps the first as fallback. */
  lemma SwitchingRun(from: string, to: string, p: P.State) returns (run: seq<Traced>)
    requires from != to && Live(p) && OpeningResult(Success(Prepared(p, false)))
    ensures IsRun(run)
    ensures var s := run[|run| - 1].s;
            InterfaceOf(s.active) == Some(to) && InterfaceOf(s.fallback) == Some(from) && s.pending.None?
  {
    var t;
    run, t := OpeningRun(from, to, p);
    SwitchStep(t, ActiveCapture(from, p), to, Prepared(p, false));
    var t' := Traced(SessionState(Some(ActiveCapture(to, p)), Some(ActiveCapture(from, p)), None), Some(from));
    run := OneMoreStep(run, t, t');
  }

  /** A run in which an opening has been answered. */
  lemma OpeningRun(from: string, to: string, p: P.State) returns (run: seq<Traced>, t: Traced)
    requires from != to && Live(p) && OpeningResult(Success(Prepared(p, false)))
    ensures IsRun(run) && run[|run| - 1] == t
    ensures t.s == SessionState(Some(ActiveCapture(from, p)), None,
                                Some(PendingActivation(to, Some(Success(Prepared(p, false))), false)))
  {
    var opening := PendingActivation(to, None, false);
    var t0 := Traced(SessionState(Some(ActiveCapture(from, p)), None, None), None);
    var t1 := t0.(s := t0.s.(pending := Some(opening)));
    var answered := opening.(result := Some(Success(Prepared(p, false))));
    t := t1.(s := t1.s.(pending := Some(answered)));
    run := FirstState(t0);
    BeginStep(t0, to);
    run := OneMoreStep(run, t0, t1);
    AnswerStep(t1, opening, answered);
    run := OneMoreStep(run, t1, t);
  }

  lemma FirstState(t: Traced) returns (run: seq<Traced>)
    requires Init(t)
    ensures IsRun(run) && run == [t]
  {
    run := [t];
  }

  lemma BeginStep(t: Traced, to: string)
    requires InterfaceOf(t.s.active) != Some(to) && t.s.pending.None? && t.s.fallback.None?
    ensures Next(t, t.(s := t.s.(pending := Some(PendingActivation(to, None, false)))))
  {
    assert t.s.(pending := Some(PendingActivation(to, None, false))) == AfterBegin(t.s, Success(to), true);
  }

  lemma SwitchStep(t: Traced, former: ActiveCapture, to: string, prepared: Prepared)
    requires !prepared.ready
    requires t.s == SessionState(Some(former), None, Some(PendingActivation(to, Some(Success(prepared)), false)))
    ensures Next(t, Traced(SessionState(Some(ActiveCapture(to, prepared.pipeline)), Some(former), None),
                           Some(former.interface)))
  {
    assert Switches(t.s);
  }

  lemma AnswerStep(t: Traced, opening: PendingActivation, answered: PendingActivation)
    requires t.s.pending == Some(opening) && !Arrived(opening)
    requires answered.result.Some? && OpeningResult(answered.result.value)
    requires answered == opening.(result := answered.result)
    ensures Next(t, t.(s := t.s.(pending := Some(answered))))
  {
    assert Answers(opening, answered);
  }

  lemma OneMoreStep(run: seq<Traced>, t: Traced, t': Traced) returns (run': seq<Traced>)
    requires IsRun(run) && run[|run| - 1] == t && Next(t, t')
    ensures IsRun(run') && run' == run + [t']
  {
    run' := run + [t'];
    forall i: nat ensures StepsTo(run', i) {
      assert StepsTo(run, i);
    }
  }

  /**
   * From such a run, a foreground activation of a third and healthy interface: the next poll gives
   * that one up, and for the first interface, not for the one that was active just before.
   */
  lemma ForegroundActivationRevertsHealthyCapture(from: string, to: string, third: string)
    returns (run: seq<Traced>, prepared: Prepared)
    requires from != to && third != to
    ensures IsRun(run) && Opens(prepared)
    ensures prepared.pipeline.cap.sourceError.None? && prepared.pipeline.failure.None?
    ensures var s := run[|run| - 1].s;
            && InterfaceOf(s.active) == Some(to)
            && InterfaceOf(AfterActivate(s, third, prepared).active) == Some(third)
            && InterfaceOf(AfterPollReadiness(AfterActivate(s, third, prepared)).active) == Some(from)
  {
    prepared := HealthyOpening();
    OpensAtOnce();
    run := SwitchingRun(from, to, P.START);
  }
}
