/**
 * The traffic pipeline: a capture worker, an aggregate worker and their owner, joined by two
 * bounded channels, a one-message readiness channel, a set-once failure cell and a stop flag.
 * Each step is one atomic, channel or source operation; any interleaving is a run. A receiver takes
 * buffered messages before it learns that its sender is gone.
 */
module Pipelines {
  import opened Net
  import opened Ledgers
  import opened LedgerLaws

  const FLOW_CHANNEL_CAPACITY: nat := 8192
  const SNAPSHOT_CHANNEL_CAPACITY: nat := 2

  /** The window and capacity of the pipeline's attributor. */
  const LIMITS: Limits := Limits(1_000_000_000, 1024)

  datatype PipelineError = CaptureFailed(message: string) | WorkerStopped(worker: string)

  /** What the source returned: a flow, a packet that is no flow, or an error. */
  datatype SourceResult = Item(flow: Option<Flow>) | Broken(message: string)

  type Readiness = Result<(), PipelineError>

  datatype CapturePc =
    | CheckStop                              // `while !stop`
    | Reading
    | Announce(result: SourceResult)         // take the readiness sender and send
    | CloseReady(result: SourceResult)       // the taken sender is dropped
    | Hold(flow: Flow)                       // check stop before offering
    | Offer(flow: Flow)                      // try_send
    | Judge(message: string)                 // check stop before recording the failure
    | Fail(message: string)
    | LeaveReady | LeaveFlow | CaptureGone   // drop the readiness sender, then the flow sender

  datatype AggregatePc =
    | Top
    | Advancing
    | PublishChange(pending: nat)
    | CheckTime(pending: nat)
    | PublishPeriodic(pending: nat)
    | SnapshotsClosed | BlameConsumer        // check stop, then record the failure
    | Receiving
    | FlowsClosed | CheckFailure | BlameCapture
    | LeaveSnapshots | LeaveFlows | AggregateGone

  datatype OwnerPc =
    | Idle
    | Draining(latest: Option<Published>)
    | Reporting(latest: Option<Published>)   // channel empty: consult the failure cell
    | Orphaned                               // channel disconnected: consult the failure cell
    | ReadinessClosed                        // readiness polled and disconnected: consult the failure cell
    | DropSnapshots | DropReady | OwnerGone  // stop is set; the receivers are dropped in turn

  /** A snapshot: the attributor calls it reflects, and the pending bytes it reports. */
  datatype Published = Published(calls: seq<Call>, pendingBytes: nat)

  /** The capture worker, with what it has seen and said. */
  datatype Capture = Capture(
    pc: CapturePc,
    readyTxHeld: bool,
    captured: seq<Flow>,                     // history: flows the source has returned
    lost: seq<Flow>,                         // history: held when the worker left
    firstRead: Option<SourceResult>,         // history
    sourceError: Option<string>,             // history
    announced: Option<Readiness>)            // history

  /** The aggregate worker, with everything it has given its attributor. */
  datatype Aggregate = Aggregate(
    pc: AggregatePc,
    lastPublishedPending: bool,
    calls: seq<Call>,
    abandoned: seq<Flow>)                    // history: left in the flow channel at the end

  /** The owner, with what it has received. */
  datatype Owner = Owner(
    pc: OwnerPc,
    readinessTaken: bool,                    // history
    delivered: seq<Published>,               // history
    errors: seq<PipelineError>,              // history: from asking for the latest snapshot
    pollErrors: seq<PipelineError>)          // history: from polling readiness

  datatype State = State(
    cap: Capture,
    agg: Aggregate,
    own: Owner,
    stop: bool,
    failure: Option<PipelineError>,
    flows: seq<Flow>,                        // flow channel
    snapshots: seq<Published>,               // snapshot channel
    published: seq<Published>,               // history: everything sent on the snapshot channel
    ready: Option<Readiness>)                // readiness channel

  function ToReadiness(r: SourceResult): Readiness {
    if r.Item? then Success(()) else Failure(CaptureFailed(r.message))
  }

  /** `OnceLock::set`. */
  function SetOnce(cell: Option<PipelineError>, error: PipelineError): Option<PipelineError> {
    if cell.Some? then cell else Some(error)
  }

  ghost function PendingBytes(calls: seq<Call>): nat {
    var queue := Run(LIMITS, calls).queue;
    Queued(queue, BytesIn(Inbound)) + Queued(queue, BytesIn(Outbound))
  }

  function FlowsIn(calls: seq<Call>): seq<Flow> {
    if calls == [] then []
    else
      var last := calls[|calls| - 1];
      FlowsIn(calls[..|calls| - 1]) + if last.FlowCall? then [last.flow] else []
  }

  // ----- The capture worker -----

  ghost predicate CaptureStep(s: State, s': State) {
    && s'.agg == s.agg && s'.own == s.own && s'.stop == s.stop
    && s'.snapshots == s.snapshots && s'.published == s.published
    && (s'.failure == s.failure || s.cap.pc.Fail?)
    && (s'.flows == s.flows || s.cap.pc.Offer?)
    && (s'.ready == s.ready || s.cap.pc.Announce?)
    && match s.cap.pc {
         case CheckStop => Goes(s, s', if s.stop then LeaveReady else Reading)
         case Reading => exists r :: Reads(s.cap, s'.cap, r)
         case Announce(r) =>
           if s.cap.readyTxHeld
           then s'.cap == s.cap.(pc := CloseReady(r), announced := Some(ToReadiness(r)))
                && s'.ready == if s.own.pc.OwnerGone? then s.ready else Some(ToReadiness(r))
           else Goes(s, s', AfterRead(r)) && s'.ready == s.ready
         case CloseReady(r) => s'.cap == s.cap.(pc := AfterRead(r), readyTxHeld := false)
         case Hold(flow) => if s.stop then Loses(s, s', flow) else Goes(s, s', Offer(flow))
         case Offer(flow) =>
           if s.agg.pc.AggregateGone? then Loses(s, s', flow) && s'.flows == s.flows
           else if |s.flows| < FLOW_CHANNEL_CAPACITY then Goes(s, s', CheckStop) && s'.flows == s.flows + [flow]
           else Goes(s, s', Hold(flow)) && s'.flows == s.flows
         case Judge(message) => Goes(s, s', if s.stop then LeaveReady else Fail(message))
         case Fail(message) => Goes(s, s', LeaveReady) && s'.failure == SetOnce(s.failure, CaptureFailed(message))
         case LeaveReady => s'.cap == s.cap.(pc := LeaveFlow, readyTxHeld := false)
         case LeaveFlow => Goes(s, s', CaptureGone)
         case CaptureGone => false
       }
  }

  predicate Goes(s: State, s': State, pc: CapturePc) {
    s'.cap == s.cap.(pc := pc)
  }

  predicate Loses(s: State, s': State, flow: Flow) {
    s'.cap == s.cap.(pc := LeaveReady, lost := [flow])
  }

  /** One call of the source; every flow it yields was parsed from a packet. */
  predicate Reads(c: Capture, c': Capture, r: SourceResult) {
    && (r.Item? && r.flow.Some? ==> WellFormed(r.flow.value))
    && c' == c.(pc := Announce(r),
                captured := c.captured + Held(Announce(r)),
                firstRead := if c.firstRead.None? then Some(r) else c.firstRead,
                sourceError := if r.Broken? then Some(r.message) else c.sourceError)
  }

  function AfterRead(r: SourceResult): CapturePc {
    match r
    case Item(None) => CheckStop
    case Item(Some(flow)) => Hold(flow)
    case Broken(message) => Judge(message)
  }

  /** The flow the capture worker has read and not yet sent. */
  function Held(pc: CapturePc): seq<Flow> {
    match pc
    case Announce(r) => if r.Item? && r.flow.Some? then [r.flow.value] else []
    case CloseReady(r) => if r.Item? && r.flow.Some? then [r.flow.value] else []
    case Hold(flow) => [flow]
    case Offer(flow) => [flow]
    case _ => []
  }

  // ----- The aggregate worker -----

  ghost predicate AggregateStep(s: State, s': State) {
    && s'.cap == s.cap && s'.own == s.own && s'.stop == s.stop && s'.ready == s.ready
    && (s'.failure == s.failure || s.agg.pc.BlameConsumer? || s.agg.pc.BlameCapture?)
    && (s'.flows == s.flows || s.agg.pc.Receiving? || s.agg.pc.LeaveFlows?)
    && (SendsNothing(s, s') || s.agg.pc.PublishChange? || s.agg.pc.PublishPeriodic?)
    && match s.agg.pc {
         case Top => Moves(s, s', if s.stop then LeaveSnapshots else Advancing)
         case Advancing => exists call: Call :: call.AdvanceCall? && Advances(s.agg, s'.agg, call)
         case PublishChange(pending) =>
           if SnapshotsDropped(s) then Moves(s, s', SnapshotsClosed) && SendsNothing(s, s')
           else if |s.snapshots| < SNAPSHOT_CHANNEL_CAPACITY then
             && Publishes(s, s', pending)
             && s'.agg == s.agg.(pc := CheckTime(pending), lastPublishedPending := pending > 0)
           else Moves(s, s', CheckTime(pending)) && SendsNothing(s, s')
         case CheckTime(pending) => Moves(s, s', PublishPeriodic(pending)) || Moves(s, s', Receiving)
         case PublishPeriodic(pending) =>
           if SnapshotsDropped(s) then Moves(s, s', SnapshotsClosed) && SendsNothing(s, s')
           else if |s.snapshots| < SNAPSHOT_CHANNEL_CAPACITY then Publishes(s, s', pending) && Moves(s, s', Top)
           else Moves(s, s', Top) && SendsNothing(s, s')
         case SnapshotsClosed => Moves(s, s', if s.stop then LeaveSnapshots else BlameConsumer)
         case BlameConsumer =>
           Moves(s, s', LeaveSnapshots) && s'.failure == SetOnce(s.failure, WorkerStopped("snapshot consumer"))
         case Receiving =>
           if s.flows != [] then
             && s'.flows == s.flows[1..]
             && exists call: Call :: call.FlowCall? && call.flow == s.flows[0] && Records(s.agg, s'.agg, call)
           else Moves(s, s', if s.cap.pc.CaptureGone? then FlowsClosed else Top) && s'.flows == s.flows
         case FlowsClosed => Moves(s, s', if s.stop then LeaveSnapshots else CheckFailure)
         case CheckFailure => Moves(s, s', if s.failure.None? then BlameCapture else LeaveSnapshots)
         case BlameCapture =>
           Moves(s, s', LeaveSnapshots) && s'.failure == SetOnce(s.failure, WorkerStopped("capture"))
         case LeaveSnapshots => Moves(s, s', LeaveFlows)
         case LeaveFlows => s'.agg == s.agg.(pc := AggregateGone, abandoned := s.flows) && s'.flows == []
         case AggregateGone => false
       }
  }

  ghost predicate Moves(s: State, s': State, pc: AggregatePc) {
    s'.agg == s.agg.(pc := pc)
  }

  /** Instants never run backwards from one attributor call to the next. */
  ghost predicate Advances(a: Aggregate, a': Aggregate, call: Call) {
    var calls := a.calls + [call];
    var pending := PendingBytes(calls);
    && Monotone(calls)
    && a' == a.(calls := calls,
                pc := if (pending > 0) != a.lastPublishedPending then PublishChange(pending) else CheckTime(pending))
  }

  ghost predicate Records(a: Aggregate, a': Aggregate, call: Call) {
    && Monotone(a.calls + [call])
    && a' == a.(calls := a.calls + [call], pc := Top)
  }

  ghost predicate Publishes(s: State, s': State, pending: nat) {
    && s'.snapshots == s.snapshots + [Published(s.agg.calls, pending)]
    && s'.published == s.published + [Published(s.agg.calls, pending)]
  }

  ghost predicate SendsNothing(s: State, s': State) {
    s'.snapshots == s.snapshots && s'.published == s.published
  }

  /** The owner's snapshot receiver is gone. */
  predicate SnapshotsDropped(s: State) {
    s.own.pc.DropReady? || s.own.pc.OwnerGone?
  }

  /** The aggregate worker's snapshot sender is gone. */
  predicate SnapshotSenderGone(s: State) {
    s.agg.pc.LeaveFlows? || s.agg.pc.AggregateGone?
  }

  // ----- The owner -----

  ghost predicate OwnerStep(s: State, s': State) {
    && s'.cap == s.cap && s'.agg == s.agg && s'.failure == s.failure && s'.flows == s.flows
    && s'.published == s.published
    && (s'.stop == s.stop || s.own.pc.Idle?)
    && (s'.snapshots == s.snapshots || s.own.pc.Draining? || s.own.pc.DropSnapshots?)
    && (s'.ready == s.ready || s.own.pc.Idle? || s.own.pc.DropReady?)
    && match s.own.pc {
         case Idle =>
           || (s'.own == s.own.(pc := Draining(None)) && s'.ready == s.ready && s'.stop == s.stop)
           || s' == TakeReadiness(s)
           || (s'.own == s.own.(pc := DropSnapshots) && s'.ready == s.ready && s'.stop)
         case Draining(latest) =>
           if s.snapshots != [] then
             s'.own == s.own.(pc := Draining(Some(s.snapshots[0]))) && s'.snapshots == s.snapshots[1..]
           else
             s'.own == s.own.(pc := if SnapshotSenderGone(s) then Orphaned else Reporting(latest))
             && s'.snapshots == s.snapshots
         case Reporting(latest) =>
           if s.failure.Some? then s'.own == s.own.(pc := Idle, errors := s.own.errors + [s.failure.value])
           else s'.own == s.own.(pc := Idle, delivered := s.own.delivered + if latest.Some? then [latest.value] else [])
         case Orphaned =>
           s'.own == s.own.(pc := Idle, errors := s.own.errors +
             [if s.failure.Some? then s.failure.value else WorkerStopped("aggregate")])
         case ReadinessClosed =>
           s'.own == s.own.(pc := Idle, pollErrors := s.own.pollErrors +
             [if s.failure.Some? then s.failure.value else WorkerStopped("capture")])
         case DropSnapshots => s'.own == s.own.(pc := DropReady) && s'.snapshots == []
         case DropReady => s'.own == s.own.(pc := OwnerGone) && s'.ready == None
         case OwnerGone => false
       }
  }

  /** What receiving from the readiness channel finds at this moment. */
  datatype ReadinessPoll = Message(readiness: Readiness) | StillEmpty | Closed

  function PollReadiness(s: State): ReadinessPoll {
    if s.ready.Some? then Message(s.ready.value) else if s.cap.readyTxHeld then StillEmpty else Closed
  }

  function ErrorOf(r: Readiness): seq<PipelineError> {
    if r.Failure? then [r.error] else []
  }

  /** The receive of a readiness poll; a closed channel sends the owner on to the failure cell. */
  function TakeReadiness(s: State): State {
    match PollReadiness(s)
    case Message(r) =>
      s.(ready := None, own := s.own.(readinessTaken := true, pollErrors := s.own.pollErrors + ErrorOf(r)))
    case StillEmpty => s
    case Closed => s.(own := s.own.(pc := ReadinessClosed))
  }

  // ----- Runs -----

  const START := State(
    Capture(CheckStop, true, [], [], None, None, None),
    Aggregate(Top, false, [], []),
    Owner(Idle, false, [], [], []),
    false, None, [], [Published([], 0)], [Published([], 0)], None)

  ghost predicate Next(s: State, s': State) {
    CaptureStep(s, s') || AggregateStep(s, s') || OwnerStep(s, s')
  }

  ghost predicate StepsTo(run: seq<State>, i: nat) {
    0 < i < |run| ==> Next(run[i - 1], run[i])
  }

  ghost predicate IsRun(run: seq<State>) {
    run != [] && run[0] == START && forall i: nat :: StepsTo(run, i)
  }

  // ----- Control: who may have left, and why -----

  predicate CaptureLeft(pc: CapturePc) {
    pc.LeaveReady? || pc.LeaveFlow? || pc.CaptureGone?
  }

  predicate AggregateLeft(pc: AggregatePc) {
    pc.LeaveSnapshots? || pc.LeaveFlows? || pc.AggregateGone?
  }

  predicate OwnerDropping(pc: OwnerPc) {
    pc.DropSnapshots? || pc.DropReady? || pc.OwnerGone?
  }

  /** The source's error, once returned, is what the capture worker carries to the failure cell. */
  predicate SourceInv(c: Capture) {
    && (c.firstRead.Some? && c.firstRead.value.Broken? ==> c.sourceError == Some(c.firstRead.value.message))
    && (c.pc.Judge? || c.pc.Fail? ==> c.sourceError == Some(c.pc.message))
    && ((c.pc.Announce? || c.pc.CloseReady?) && c.pc.result.Broken? ==> c.sourceError == Some(c.pc.result.message))
    && (c.sourceError.Some? ==>
          || c.pc.Judge? || c.pc.Fail? || CaptureLeft(c.pc)
          || ((c.pc.Announce? || c.pc.CloseReady?) && c.pc.result.Broken?))
  }

  predicate FailureInv(s: State) {
    s.failure.Some? ==> IsSourceError(s.cap, s.failure.value)
  }

  predicate ExitInv(s: State) {
    && (s.stop <==> OwnerDropping(s.own.pc))
    && (CaptureLeft(s.cap.pc) ==> s.stop || s.failure.Some?)
    && (AggregateLeft(s.agg.pc) ==> s.stop || (s.cap.pc.CaptureGone? && s.failure.Some? && s.flows == []))
    && (s.agg.pc.FlowsClosed? ==> s.cap.pc.CaptureGone? && s.flows == [])
    && (s.agg.pc.CheckFailure? ==> s.cap.pc.CaptureGone? && s.flows == [] && s.failure.Some?)
    && (s.agg.pc.SnapshotsClosed? ==> s.stop)
    && !s.agg.pc.BlameConsumer? && !s.agg.pc.BlameCapture?
    && (s.own.pc.Orphaned? ==> s.failure.Some?)
  }

  predicate IsSourceError(c: Capture, e: PipelineError) {
    c.sourceError.Some? && e == CaptureFailed(c.sourceError.value)
  }

  /** Errors are the source's own, except for readiness polls after the message was taken. */
  ghost predicate ErrorInv(s: State) {
    && (forall e :: e in s.own.errors ==> IsSourceError(s.cap, e))
    && (forall e :: e in s.own.pollErrors ==> IsSourceError(s.cap, e) || e == WorkerStopped("capture"))
    && (s.own.pc.ReadinessClosed? ==> s.own.readinessTaken && !s.cap.readyTxHeld)
  }

  predicate ChannelInv(s: State) {
    && |s.flows| <= FLOW_CHANNEL_CAPACITY
    && |s.snapshots| <= SNAPSHOT_CHANNEL_CAPACITY
    && (s.agg.abandoned != [] ==> s.stop)
    && (s.agg.pc.AggregateGone? || s.agg.abandoned == [])
    && (s.agg.pc.AggregateGone? ==> s.flows == [])
    && (s.cap.lost != [] ==> s.stop && CaptureLeft(s.cap.pc))
    && |s.cap.lost| <= 1
  }

  predicate ControlInv(s: State) {
    SourceInv(s.cap) && FailureInv(s) && ExitInv(s) && ChannelInv(s)
  }

  // ----- Flows: nothing captured is dropped or reordered before stop -----

  /** The flows on their way from the source to the attributor. */
  function InFlight(s: State): seq<Flow> {
    s.flows + Held(s.cap.pc) + s.cap.lost
  }

  ghost predicate FlowInv(s: State) {
    && s.cap.captured == FlowsIn(s.agg.calls) + s.agg.abandoned + InFlight(s)
    && (forall flow :: flow in s.cap.captured ==> WellFormed(flow))
  }

  // ----- Readiness: one message, the outcome of the first read -----

  predicate AnnounceInv(c: Capture) {
    && (c.announced.Some? ==> c.firstRead.Some? && c.announced.value == ToReadiness(c.firstRead.value))
    && (c.announced.None? ==>
          match c.pc
          case CheckStop => c.firstRead.None?
          case Reading => c.firstRead.None?
          case Announce(r) => c.firstRead == Some(r)
          case _ => CaptureLeft(c.pc))
    && (c.announced.None? && !CaptureLeft(c.pc) ==> c.readyTxHeld)
    && (c.announced.Some? && c.readyTxHeld ==> c.pc.CloseReady?)
  }

  predicate ReadyInv(s: State) {
    && AnnounceInv(s.cap)
    && (s.ready.Some? ==> s.cap.announced == s.ready && !s.own.readinessTaken)
    && (s.own.readinessTaken ==> s.cap.announced.Some?)
    && (s.cap.announced.Some? && !s.own.readinessTaken && !s.stop ==> s.ready == s.cap.announced)
    && (s.cap.announced.None? && CaptureLeft(s.cap.pc) ==> s.stop)
  }

  // ----- Snapshots: in order, each with its own pending bytes -----

  ghost predicate IsPrefix<T>(a: seq<T>, b: seq<T>) {
    |a| <= |b| && b[..|a|] == a
  }

  ghost predicate Chain(ps: seq<Published>, calls: seq<Call>) {
    && (forall i, j :: 0 <= i < j < |ps| ==> IsPrefix(ps[i].calls, ps[j].calls))
    && (forall i :: 0 <= i < |ps| ==> IsPrefix(ps[i].calls, calls) && ps[i].pendingBytes == PendingBytes(ps[i].calls))
  }

  function Latest(pc: OwnerPc): seq<Published> {
    if (pc.Draining? || pc.Reporting?) && pc.latest.Some? then [pc.latest.value] else []
  }

  /** Every snapshot the owner has got, holds or will find in the channel, in order. */
  function Stream(s: State): seq<Published> {
    s.own.delivered + Latest(s.own.pc) + s.snapshots
  }

  predicate HasPending(pc: AggregatePc) {
    pc.PublishChange? || pc.CheckTime? || pc.PublishPeriodic?
  }

  ghost predicate ReportsPending(a: Aggregate) {
    HasPending(a.pc) ==> a.pc.pending == PendingBytes(a.calls)
  }

  ghost predicate SnapshotInv(s: State) {
    && Chain(Stream(s), s.agg.calls)
    && ReportsPending(s.agg)
    && Monotone(s.agg.calls)
  }

  ghost predicate Inv(s: State) {
    ControlInv(s) && ErrorInv(s) && FlowInv(s) && ReadyInv(s) && SnapshotInv(s)
  }

  // ----- Every step keeps the invariants -----

  lemma CaptureKeepsSource(s: State, s': State)
    requires SourceInv(s.cap) && CaptureStep(s, s')
    ensures SourceInv(s'.cap)
  {
  }

  lemma CaptureKeepsFailure(s: State, s': State)
    requires SourceInv(s.cap) && FailureInv(s) && CaptureStep(s, s')
    ensures FailureInv(s')
  {
  }

  lemma CaptureKeepsControl(s: State, s': State)
    requires ControlInv(s) && CaptureStep(s, s')
    ensures ControlInv(s')
  {
    CaptureKeepsSource(s, s');
    CaptureKeepsFailure(s, s');
  }

  lemma CaptureKeepsReady(s: State, s': State)
    requires ReadyInv(s) && ExitInv(s) && CaptureStep(s, s')
    ensures ReadyInv(s')
  {
  }

  lemma CaptureKeepsErrors(s: State, s': State)
    requires SourceInv(s.cap) && ErrorInv(s) && CaptureStep(s, s')
    ensures ErrorInv(s')
  {
    assert s.cap.pc.Reading? ==> s.cap.sourceError.None?;
  }

  lemma OfferMoves(s: State, s': State)
    requires ChannelInv(s) && CaptureStep(s, s') && s.cap.pc.Offer?
    ensures InFlight(s') == InFlight(s) && s'.cap.captured == s.cap.captured
  {
    assert s.cap.lost == [];
  }

  lemma ReadMoves(s: State, s': State)
    requires CaptureStep(s, s') && s.cap.pc.Reading?
    ensures InFlight(s') == s.flows + Held(s'.cap.pc) + s.cap.lost && Held(s.cap.pc) == []
    ensures s'.cap.captured == s.cap.captured + Held(s'.cap.pc)
    ensures forall flow :: flow in Held(s'.cap.pc) ==> WellFormed(flow)
  {
  }

  lemma HandsOn(s: State, s': State)
    requires ChannelInv(s) && CaptureStep(s, s') && !s.cap.pc.Reading? && !s.cap.pc.Offer?
    ensures s'.flows == s.flows && s'.cap.captured == s.cap.captured
    ensures Held(s'.cap.pc) + s'.cap.lost == Held(s.cap.pc) + s.cap.lost
  {
  }

  lemma CaptureMoves(s: State, s': State)
    requires ChannelInv(s) && CaptureStep(s, s')
    ensures var read := if s.cap.pc.Reading? then Held(s'.cap.pc) else [];
            && InFlight(s') == InFlight(s) + read
            && s'.cap.captured == s.cap.captured + read
            && forall flow :: flow in read ==> WellFormed(flow)
  {
    if s.cap.pc.Offer? {
      OfferMoves(s, s');
    } else if s.cap.pc.Reading? {
      ReadMoves(s, s');
      assert s.cap.lost == [];
    } else {
      HandsOn(s, s');
      Regroup(s.flows, Held(s'.cap.pc), s'.cap.lost, Held(s.cap.pc), s.cap.lost);
    }
  }

  lemma ReadFlowsAccount(
    before: seq<Flow>, inFlight: seq<Flow>, inFlight': seq<Flow>, captured: seq<Flow>, read: seq<Flow>)
    requires captured == before + inFlight && inFlight' == inFlight + read
    requires forall flow :: flow in captured ==> WellFormed(flow)
    requires forall flow :: flow in read ==> WellFormed(flow)
    ensures captured + read == before + inFlight'
    ensures forall flow :: flow in captured + read ==> WellFormed(flow)
  {
  }

  lemma CaptureKeepsFlows(s: State, s': State)
    requires ChannelInv(s) && FlowInv(s) && CaptureStep(s, s')
    ensures FlowInv(s')
  {
    CaptureMoves(s, s');
    var read := if s.cap.pc.Reading? then Held(s'.cap.pc) else [];
    ReadFlowsAccount(FlowsIn(s.agg.calls) + s.agg.abandoned, InFlight(s), InFlight(s'), s.cap.captured, read);
  }

  lemma AggregateKeepsExit(s: State, s': State)
    requires ControlInv(s) && AggregateStep(s, s')
    ensures ExitInv(s') && s'.failure == s.failure
  {
  }

  lemma AggregateKeepsChannels(s: State, s': State)
    requires ControlInv(s) && AggregateStep(s, s')
    ensures ChannelInv(s')
  {
  }

  lemma AggregateKeepsControl(s: State, s': State)
    requires ControlInv(s) && AggregateStep(s, s')
    ensures ControlInv(s')
  {
    AggregateKeepsExit(s, s');
    AggregateKeepsChannels(s, s');
  }

  lemma FlowsInAppend(calls: seq<Call>, call: Call)
    ensures FlowsIn(calls + [call]) == FlowsIn(calls) + if call.FlowCall? then [call.flow] else []
  {
    assert (calls + [call])[..|calls|] == calls;
  }

  lemma AdvanceMoves(s: State, s': State)
    requires AggregateStep(s, s') && s.agg.pc.Advancing?
    ensures FlowsIn(s'.agg.calls) == FlowsIn(s.agg.calls)
    ensures s'.agg.abandoned == s.agg.abandoned && s'.flows == s.flows
  {
    var call: Call :| call.AdvanceCall? && Advances(s.agg, s'.agg, call);
    FlowsInAppend(s.agg.calls, call);
  }

  lemma FirstFlowMoves(calls: seq<Call>, call: Call, flows: seq<Flow>)
    requires flows != [] && call.FlowCall? && call.flow == flows[0]
    ensures FlowsIn(calls + [call]) + flows[1..] == FlowsIn(calls) + flows
  {
    FlowsInAppend(calls, call);
    assert flows == [flows[0]] + flows[1..];
  }

  lemma ReceiveMoves(s: State, s': State)
    requires AggregateStep(s, s') && s.agg.pc.Receiving?
    ensures FlowsIn(s'.agg.calls) + s'.flows == FlowsIn(s.agg.calls) + s.flows
    ensures s'.agg.abandoned == s.agg.abandoned
  {
    if s.flows != [] {
      var call: Call :| call.FlowCall? && call.flow == s.flows[0] && Records(s.agg, s'.agg, call);
      FirstFlowMoves(s.agg.calls, call, s.flows);
    }
  }

  lemma OtherMoves(s: State, s': State)
    requires ChannelInv(s) && AggregateStep(s, s') && !s.agg.pc.Advancing? && !s.agg.pc.Receiving?
    ensures s'.agg.calls == s.agg.calls
    ensures s'.agg.abandoned + s'.flows == s.agg.abandoned + s.flows
  {
  }

  /** The aggregate worker gives each flow it takes to the attributor, or leaves the channel as it is. */
  lemma AggregateMoves(s: State, s': State)
    requires ChannelInv(s) && AggregateStep(s, s')
    ensures FlowsIn(s'.agg.calls) + s'.agg.abandoned + s'.flows == FlowsIn(s.agg.calls) + s.agg.abandoned + s.flows
    ensures s'.cap == s.cap
  {
    if s.agg.pc.Advancing? {
      AdvanceMoves(s, s');
    } else if s.agg.pc.Receiving? {
      ReceiveMoves(s, s');
      assert s.agg.abandoned == [] && s'.agg.abandoned == [];
    } else {
      OtherMoves(s, s');
      Regroup(FlowsIn(s.agg.calls), s'.agg.abandoned, s'.flows, s.agg.abandoned, s.flows);
    }
  }

  lemma Regroup<T>(a: seq<T>, b': seq<T>, c': seq<T>, b: seq<T>, c: seq<T>)
    requires b' + c' == b + c
    ensures a + b' + c' == a + b + c
  {
    assert a + b' + c' == a + (b' + c') && a + b + c == a + (b + c);
  }

  lemma AggregateKeepsFlows(s: State, s': State)
    requires ChannelInv(s) && FlowInv(s) && AggregateStep(s, s')
    ensures FlowInv(s')
  {
    AggregateMoves(s, s');
    InFlightSplit(s);
    InFlightSplit(s');
  }

  lemma InFlightSplit(s: State)
    ensures FlowsIn(s.agg.calls) + s.agg.abandoned + InFlight(s) ==
            FlowsIn(s.agg.calls) + s.agg.abandoned + s.flows + (Held(s.cap.pc) + s.cap.lost)
  {
  }

  lemma ChainGrows(ps: seq<Published>, calls: seq<Call>, calls': seq<Call>)
    requires Chain(ps, calls) && IsPrefix(calls, calls')
    ensures Chain(ps, calls')
  {
    forall i | 0 <= i < |ps| ensures IsPrefix(ps[i].calls, calls') {
      assert calls'[..|calls|][..|ps[i].calls|] == calls'[..|ps[i].calls|];
    }
  }

  lemma AggregateCalls(s: State, s': State)
    requires SnapshotInv(s) && AggregateStep(s, s')
    ensures IsPrefix(s.agg.calls, s'.agg.calls) && Monotone(s'.agg.calls)
  {
  }

  /** Attributor calls publish nothing, and an advance carries the new pending bytes. */
  lemma CallReports(s: State, s': State)
    requires (s.agg.pc.Advancing? || s.agg.pc.Receiving?) && AggregateStep(s, s')
    ensures ReportsPending(s'.agg) && s'.snapshots == s.snapshots
  {
    if s.agg.pc.Advancing? {
      var call: Call :| call.AdvanceCall? && Advances(s.agg, s'.agg, call);
    }
  }

  lemma PublishReports(s: State, s': State)
    requires (s.agg.pc.PublishChange? || s.agg.pc.PublishPeriodic?) && AggregateStep(s, s')
    ensures s'.agg.calls == s.agg.calls
    ensures HasPending(s'.agg.pc) ==> s'.agg.pc.pending == s.agg.pc.pending
    ensures s'.snapshots == s.snapshots || s'.snapshots == s.snapshots + [Published(s.agg.calls, s.agg.pc.pending)]
  {
  }

  lemma OtherReports(s: State, s': State)
    requires AggregateStep(s, s')
    requires !s.agg.pc.Advancing? && !s.agg.pc.Receiving? && !s.agg.pc.PublishChange? && !s.agg.pc.PublishPeriodic?
    ensures s'.agg.calls == s.agg.calls && s'.snapshots == s.snapshots
    ensures HasPending(s'.agg.pc) ==> HasPending(s.agg.pc) && s'.agg.pc.pending == s.agg.pc.pending
  {
  }

  lemma AggregateReports(s: State, s': State)
    requires ReportsPending(s.agg) && AggregateStep(s, s')
    ensures ReportsPending(s'.agg)
    ensures s'.snapshots == s.snapshots ||
            (s'.agg.calls == s.agg.calls
             && s'.snapshots == s.snapshots + [Published(s.agg.calls, PendingBytes(s.agg.calls))])
  {
    match s.agg.pc
    case Advancing => CallReports(s, s');
    case Receiving => CallReports(s, s');
    case PublishChange(_) => PublishReports(s, s');
    case PublishPeriodic(_) => PublishReports(s, s');
    case _ => OtherReports(s, s');
  }

  lemma AggregateKeepsSnapshots(s: State, s': State)
    requires SnapshotInv(s) && AggregateStep(s, s')
    ensures SnapshotInv(s')
  {
    AggregateCalls(s, s');
    AggregateReports(s, s');
    ChainGrows(Stream(s), s.agg.calls, s'.agg.calls);
    if s'.snapshots != s.snapshots {
      assert Stream(s') == Stream(s) + [Published(s.agg.calls, PendingBytes(s.agg.calls))];
    }
  }

  lemma OwnerKeepsControl(s: State, s': State)
    requires ControlInv(s) && OwnerStep(s, s')
    ensures ControlInv(s')
  {
  }

  lemma OwnerKeepsReady(s: State, s': State)
    requires ReadyInv(s) && ExitInv(s) && OwnerStep(s, s')
    ensures ReadyInv(s')
  {
  }

  lemma OwnerKeepsErrors(s: State, s': State)
    requires ControlInv(s) && ReadyInv(s) && ErrorInv(s) && OwnerStep(s, s')
    ensures ErrorInv(s')
  {
  }

  /** The owner takes snapshots from the front, in order, keeping the latest or none. */
  lemma OwnerTakesInOrder(s: State, s': State)
    requires OwnerStep(s, s')
    ensures var n := |s.own.delivered|;
            || Stream(s') == Stream(s)
            || IsPrefix(Stream(s'), Stream(s))
            || (n < |Stream(s)| && Stream(s') == Stream(s)[..n] + Stream(s)[n + 1..])
  {
    match s.own.pc
    case Draining(latest) => DrainInOrder(s, s');
    case Reporting(latest) => ReportInOrder(s, s');
    case DropSnapshots => assert Stream(s') == Stream(s)[..|Stream(s')|];
    case _ =>
  }

  lemma DrainInOrder(s: State, s': State)
    requires OwnerStep(s, s') && s.own.pc.Draining?
    ensures var n := |s.own.delivered|;
            || Stream(s') == Stream(s)
            || (n < |Stream(s)| && Stream(s') == Stream(s)[..n] + Stream(s)[n + 1..])
  {
    if s.snapshots != [] {
      TakeFromFront(s.own.delivered, Latest(s.own.pc), s.snapshots);
    }
  }

  lemma TakeFromFront<T>(taken: seq<T>, latest: seq<T>, rest: seq<T>)
    requires rest != [] && |latest| <= 1
    ensures var all := taken + latest + rest;
            taken + [rest[0]] + rest[1..] ==
            if latest == [] then all else all[..|taken|] + all[|taken| + 1..]
  {
    assert rest == [rest[0]] + rest[1..];
    assert taken + [rest[0]] + rest[1..] == taken + rest;
  }

  lemma ReportInOrder(s: State, s': State)
    requires OwnerStep(s, s') && s.own.pc.Reporting?
    ensures var n := |s.own.delivered|;
            || Stream(s') == Stream(s)
            || (n < |Stream(s)| && Stream(s') == Stream(s)[..n] + Stream(s)[n + 1..])
  {
    if s.failure.Some? {
      assert Stream(s') == s.own.delivered + s.snapshots;
    }
  }

  lemma SubChain(ps: seq<Published>, qs: seq<Published>, calls: seq<Call>, skip: nat)
    requires Chain(ps, calls)
    requires qs == ps || IsPrefix(qs, ps) || (skip < |ps| && qs == ps[..skip] + ps[skip + 1..])
    ensures Chain(qs, calls)
  {
  }

  lemma OwnerKeepsSnapshots(s: State, s': State)
    requires SnapshotInv(s) && OwnerStep(s, s')
    ensures SnapshotInv(s')
  {
    OwnerTakesInOrder(s, s');
    SubChain(Stream(s), Stream(s'), s.agg.calls, |s.own.delivered|);
  }

  lemma NextKeepsInv(s: State, s': State)
    requires Inv(s) && Next(s, s')
    ensures Inv(s')
  {
    if CaptureStep(s, s') {
      CaptureKeepsControl(s, s');
      CaptureKeepsReady(s, s');
      CaptureKeepsErrors(s, s');
      CaptureKeepsFlows(s, s');
    } else if AggregateStep(s, s') {
      AggregateKeepsControl(s, s');
      AggregateKeepsFlows(s, s');
      AggregateKeepsSnapshots(s, s');
    } else {
      OwnerKeepsControl(s, s');
      OwnerKeepsReady(s, s');
      OwnerKeepsErrors(s, s');
      OwnerKeepsSnapshots(s, s');
    }
  }

  lemma StartHasInv()
    ensures Inv(START)
  {
    assert START.agg.calls == [];
  }

  lemma {:induction false} RunKeepsInv(run: seq<State>, i: nat)
    requires IsRun(run) && i < |run|
    ensures Inv(run[i])
  {
    StartHasInv();
    if i > 0 {
      RunKeepsInv(run, i - 1);
      assert StepsTo(run, i);
      NextKeepsInv(run[i - 1], run[i]);
    }
  }

  lemma LastHasInv(run: seq<State>, s: State)
    requires IsRun(run) && run[|run| - 1] == s
    ensures Inv(s)
  {
    RunKeepsInv(run, |run| - 1);
  }

  // ----- Results over every interleaving -----

  lemma PartsInOrder<T>(whole: seq<T>, a: seq<T>, b: seq<T>, c: seq<T>)
    requires whole == a + b + c
    ensures IsPrefix(a, whole)
    ensures b == [] ==> whole == a + c
  {
  }

  lemma AllAccountedFor(s: State)
    requires FlowInv(s) && ChannelInv(s)
    ensures IsPrefix(FlowsIn(s.agg.calls), s.cap.captured)
    ensures !s.stop ==> s.cap.captured == FlowsIn(s.agg.calls) + s.flows + Held(s.cap.pc)
    ensures |Held(s.cap.pc)| + |s.cap.lost| <= 1
  {
    PartsInOrder(s.cap.captured, FlowsIn(s.agg.calls), s.agg.abandoned, InFlight(s));
    if !s.stop {
      assert InFlight(s) == s.flows + Held(s.cap.pc);
      Regroup(FlowsIn(s.agg.calls), [], InFlight(s), s.flows, Held(s.cap.pc));
    }
  }

  /**
   * Flows reach the attributor in capture order, each once. Until stop, every captured flow has
   * been recorded, is in the channel, or is the one the capture worker holds.
   */
  lemma NoFlowIsLostBeforeStop(run: seq<State>, i: nat)
    requires IsRun(run) && i < |run|
    ensures var s := run[i];
            && IsPrefix(FlowsIn(s.agg.calls), s.cap.captured)
            && (!s.stop ==> s.cap.captured == FlowsIn(s.agg.calls) + s.flows + Held(s.cap.pc))
            && |Held(s.cap.pc)| + |s.cap.lost| <= 1
            && |s.flows| <= 8192 && |s.snapshots| <= 2
  {
    RunKeepsInv(run, i);
    AllAccountedFor(run[i]);
  }

  /**
   * The failure cell, and every error from asking for the latest snapshot, is the source's own, and
   * a readiness poll can only blame the capture worker otherwise; before stop a worker leaves only
   * after the failure is set.
   */
  lemma OnlySourceErrorsAreReported(run: seq<State>, i: nat)
    requires IsRun(run) && i < |run|
    ensures var s := run[i];
            && (s.failure.Some? ==> IsSourceError(s.cap, s.failure.value))
            && (forall e :: e in s.own.errors ==> IsSourceError(s.cap, e))
            && (forall e :: e in s.own.pollErrors ==> IsSourceError(s.cap, e) || e == WorkerStopped("capture"))
            && (!s.stop && (CaptureLeft(s.cap.pc) || AggregateLeft(s.agg.pc)) ==> s.failure.Some?)
  {
    RunKeepsInv(run, i);
  }

  /**
   * A readiness poll that begins at `j`, after the message was taken and its sender dropped, and
   * finds the failure cell empty at `k`.
   */
  ghost predicate PollsAgain(run: seq<State>, j: nat, k: nat) {
    && j < k < |run| - 1
    && run[j].own.pc.Idle? && run[j].own.readinessTaken && !run[j].cap.readyTxHeld
    && (forall m :: j < m <= k ==> run[m].own.pc.ReadinessClosed?)
    && run[k].failure.None? && run[k + 1].own.pc.Idle?
  }

  ghost predicate BlamesWorker(s: State) {
    exists e :: e in s.own.pollErrors && e.WorkerStopped?
  }

  /** The poll that found the channel closed. */
  lemma {:induction false} PollBegan(run: seq<State>, k: nat) returns (j: nat)
    requires IsRun(run) && k < |run| && run[k].own.pc.ReadinessClosed?
    ensures j < k && run[j].own.pc.Idle? && run[j].own.readinessTaken && !run[j].cap.readyTxHeld
    ensures forall m :: j < m <= k ==> run[m].own.pc.ReadinessClosed?
  {
    assert StepsTo(run, k);
    if run[k - 1].own.pc.ReadinessClosed? {
      j := PollBegan(run, k - 1);
    } else {
      j := k - 1;
      RunKeepsInv(run, k - 1);
      PollFindsClosed(run[k - 1], run[k]);
    }
  }

  lemma PollFindsClosed(s: State, s': State)
    requires ExitInv(s) && ReadyInv(s) && Next(s, s')
    requires !s.own.pc.ReadinessClosed? && s'.own.pc.ReadinessClosed?
    ensures s.own.pc.Idle? && s.own.readinessTaken && !s.cap.readyTxHeld
  {
  }

  /** The poll that ends at this step finds the channel closed and the failure cell empty. */
  predicate Blames(s: State, s': State) {
    s.own.pc.ReadinessClosed? && s'.own.pc.Idle? && s.failure.None?
  }

  lemma BlameStep(s: State, s': State)
    requires FailureInv(s) && ReadyInv(s) && Next(s, s')
    ensures BlamesWorker(s') <==> BlamesWorker(s) || Blames(s, s')
  {
    if s'.own.pollErrors != s.own.pollErrors {
      var e := s'.own.pollErrors[|s.own.pollErrors|];
      assert s'.own.pollErrors == s.own.pollErrors + [e];
      assert e.WorkerStopped? <==> Blames(s, s');
    }
  }

  lemma BlameAt(run: seq<State>, i: nat)
    requires IsRun(run) && 0 < i < |run|
    ensures BlamesWorker(run[i]) <==> BlamesWorker(run[i - 1]) || Blames(run[i - 1], run[i])
  {
    CellAndReadiness(run, i - 1);
    RunBlames(run, i);
  }

  lemma CellAndReadiness(run: seq<State>, i: nat)
    requires IsRun(run) && i < |run|
    ensures FailureInv(run[i]) && ReadyInv(run[i])
  {
    RunKeepsInv(run, i);
  }

  lemma RunBlames(run: seq<State>, i: nat)
    requires IsRun(run) && 0 < i < |run| && FailureInv(run[i - 1]) && ReadyInv(run[i - 1])
    ensures BlamesWorker(run[i]) <==> BlamesWorker(run[i - 1]) || Blames(run[i - 1], run[i])
  {
    assert StepsTo(run, i);
    BlameStep(run[i - 1], run[i]);
  }

  /**
   * Readiness polls blame a worker exactly when readiness is polled again after its message was
   * taken and its sender dropped, and the failure cell is empty.
   */
  lemma {:induction false} OnlyRepeatedPollsBlameAWorker(run: seq<State>, i: nat)
    requires IsRun(run) && i < |run|
    ensures BlamesWorker(run[i]) <==> exists j: nat, k: nat :: k < i && PollsAgain(run, j, k)
  {
    if i > 0 {
      OnlyRepeatedPollsBlameAWorker(run, i - 1);
      BlameAt(run, i);
      if Blames(run[i - 1], run[i]) {
        var j := PollBegan(run, i - 1);
        assert PollsAgain(run, j, i - 1);
      }
    }
  }

  /** After a first read that was no flow: the message is sent and its sender dropped. */
  const AFTER_FIRST_READ := START.(
    cap := Capture(CheckStop, false, [], [], Some(Item(None)), None, Some(Success(()))),
    ready := Some(Success(())))

  lemma FirstReadRun() returns (run: seq<State>)
    ensures IsRun(run) && run[|run| - 1] == AFTER_FIRST_READ
  {
    var s1 := START.(cap := START.cap.(pc := Reading));
    var s2 := s1.(cap := s1.cap.(pc := Announce(Item(None)), firstRead := Some(Item(None))));
    var s3 := s2.(cap := s2.cap.(pc := CloseReady(Item(None)), announced := Some(Success(()))),
                  ready := Some(Success(())));
    assert Reads(s1.cap, s2.cap, Item(None));
    assert CaptureStep(START, s1) && CaptureStep(s1, s2) && CaptureStep(s2, s3) && CaptureStep(s3, AFTER_FIRST_READ);
    run := [START, s1, s2, s3, AFTER_FIRST_READ];
  }

  lemma OneMoreStep(run: seq<State>, s: State) returns (run': seq<State>)
    requires IsRun(run) && Next(run[|run| - 1], s)
    ensures IsRun(run') && run' == run + [s]
  {
    run' := run + [s];
    forall i: nat ensures StepsTo(run', i) {
      assert StepsTo(run, i);
    }
  }

  /** A second poll blames the capture worker of a pipeline in which nothing has failed. */
  lemma HealthyCaptureCanBeBlamed() returns (run: seq<State>)
    ensures IsRun(run)
    ensures var s := run[|run| - 1];
            && !s.stop && s.failure.None? && s.cap.sourceError.None? && !CaptureLeft(s.cap.pc)
            && s.own.pollErrors == [WorkerStopped("capture")]
  {
    run := FirstReadRun();
    var t1 := TakeReadiness(AFTER_FIRST_READ);
    var t2 := TakeReadiness(t1);
    var t3 := t2.(own := t2.own.(pc := Idle, pollErrors := [WorkerStopped("capture")]));
    assert OwnerStep(AFTER_FIRST_READ, t1) && OwnerStep(t1, t2) && OwnerStep(t2, t3);
    run := OneMoreStep(run, t1);
    run := OneMoreStep(run, t2);
    run := OneMoreStep(run, t3);
  }

  lemma {:induction false} ChangeIsHeld(run: seq<State>, i: nat, m: nat)
    requires IsRun(run) && i < m < |run| && run[i].agg.pc.Advancing?
    requires forall x :: i < x <= m ==> run[x].agg.pc.PublishChange?
    ensures run[m].published == run[i].published && run[m].agg == run[i + 1].agg
  {
    HeldChangeStep(run, m);
    if m > i + 1 {
      ChangeIsHeld(run, i, m - 1);
    }
  }

  lemma HeldChangeStep(run: seq<State>, m: nat)
    requires IsRun(run) && 0 < m < |run| && run[m].agg.pc.PublishChange?
    requires run[m - 1].agg.pc.PublishChange? || run[m - 1].agg.pc.Advancing?
    ensures run[m].published == run[m - 1].published
    ensures run[m - 1].agg.pc.PublishChange? ==> run[m].agg == run[m - 1].agg
  {
    assert StepsTo(run, m);
  }

  lemma ChangeGoesOut(s: State, s': State)
    requires Next(s, s') && s.agg.pc.PublishChange? && !s'.agg.pc.PublishChange? && !SnapshotsDropped(s)
    requires |s.snapshots| <= 2 && s.agg.pc.pending == PendingBytes(s.agg.calls)
    ensures s'.agg.calls == s.agg.calls
    ensures |s.snapshots| < 2 ==>
              && s'.published == s.published + [Published(s.agg.calls, PendingBytes(s.agg.calls))]
              && s'.agg.lastPublishedPending == (PendingBytes(s.agg.calls) > 0)
    ensures |s.snapshots| == 2 ==>
              s'.published == s.published && s'.agg.lastPublishedPending == s.agg.lastPublishedPending
  {
  }

  lemma ReadyToAnnounce(run: seq<State>, m: nat)
    requires IsRun(run) && m < |run| && !run[m].stop
    ensures !SnapshotsDropped(run[m]) && |run[m].snapshots| <= 2
    ensures run[m].agg.pc.PublishChange? ==> run[m].agg.pc.pending == PendingBytes(run[m].agg.calls)
  {
    RunKeepsInv(run, m);
  }

  /** The advance of one loop, from before it to what the next step finds. */
  lemma LoopDecides(run: seq<State>, i: nat)
    requires IsRun(run) && i + 1 < |run| && run[i].agg.pc.Advancing? && !run[i + 1].agg.pc.Advancing?
    ensures var s, s' := run[i], run[i + 1];
            && s'.published == s.published && s'.agg.lastPublishedPending == s.agg.lastPublishedPending
            && (s'.agg.pc.PublishChange? <==> (PendingBytes(s'.agg.calls) > 0) != s.agg.lastPublishedPending)
  {
    assert StepsTo(run, i + 1);
  }

  lemma LoopAnnounces(run: seq<State>, k: nat)
    requires IsRun(run) && 0 < k < |run| && !run[k - 1].stop
    requires run[k - 1].agg.pc.PublishChange? && !run[k].agg.pc.PublishChange?
    ensures var s, s' := run[k - 1], run[k];
            var bytes := PendingBytes(s.agg.calls);
            && s'.agg.calls == s.agg.calls
            && (|s.snapshots| < 2 ==>
                  && s'.published == s.published + [Published(s.agg.calls, bytes)]
                  && s'.agg.lastPublishedPending == (bytes > 0))
            && (|s.snapshots| >= 2 ==>
                  s'.published == s.published && s'.agg.lastPublishedPending == s.agg.lastPublishedPending)
  {
    assert StepsTo(run, k);
    ReadyToAnnounce(run, k - 1);
    ChangeGoesOut(run[k - 1], run[k]);
  }

  /**
   * In every loop, of which the advance ends after moment `i` and the announcement is over at `k`: a
   * snapshot is sent exactly when bytes have begun or ceased to wait since the last such announcement
   * and there is room for it, and then it counts as announced.
   */
  lemma PendingChangesAreAnnounced(run: seq<State>, i: nat, k: nat)
    requires IsRun(run) && i < k < |run| && !run[k - 1].stop
    requires run[i].agg.pc.Advancing? && !run[i + 1].agg.pc.Advancing?
    requires forall m :: i < m < k ==> run[m].agg.pc.PublishChange?
    requires !run[k].agg.pc.PublishChange?
    ensures var before, after := run[i], run[k];
            var calls := after.agg.calls;
            var waiting := PendingBytes(calls) > 0;
            if waiting != before.agg.lastPublishedPending && |run[k - 1].snapshots| < 2
            then after.published == before.published + [Published(calls, PendingBytes(calls))]
                 && after.agg.lastPublishedPending == waiting
            else after.published == before.published
                 && after.agg.lastPublishedPending == before.agg.lastPublishedPending
  {
    LoopDecides(run, i);
    if k > i + 1 {
      ChangeIsHeld(run, i, k - 1);
      LoopAnnounces(run, k);
    }
  }

  /**
   * Before stop, the first readiness message is the outcome of the source's first read; there is no
   * second one; and the channel reads as closed exactly when the message was taken and its sender dropped.
   */
  lemma ReadinessIsFirstRead(s: State)
    requires Inv(s) && !s.stop
    ensures !s.own.readinessTaken ==>
              match PollReadiness(s)
              case Message(r) => s.cap.firstRead.Some? && r == ToReadiness(s.cap.firstRead.value)
              case StillEmpty => s.cap.announced.None?
              case Closed => false
    ensures s.own.readinessTaken ==> !PollReadiness(s).Message?
    ensures PollReadiness(s).Closed? <==> s.own.readinessTaken && !s.cap.readyTxHeld
  {
  }

  // ----- Snapshots -----

  ghost function TrafficFlows(entries: seq<Entry>): seq<Flow> {
    if entries == [] then []
    else
      var last := entries[|entries| - 1];
      TrafficFlows(entries[..|entries| - 1]) + if last.Traffic? then [last.flow] else []
  }

  lemma TrafficAppend(entries: seq<Entry>, e: Entry)
    ensures TrafficFlows(entries + [e]) == TrafficFlows(entries) + if e.Traffic? then [e.flow] else []
  {
    assert (entries + [e])[..|entries|] == entries;
  }

  lemma {:induction false} ExpireTraffic(l: Ledger, window: nat, now: Instant)
    ensures TrafficFlows(Expire(l, window, now).entries) == TrafficFlows(l.entries)
    decreases |l.queue|
  {
    if l.queue != [] && Overdue(l.queue[0], window, now) {
      TrafficAppend(l.entries, Decision(None, l.queue[0]));
      ExpireTraffic(DecideOldest(l), window, now);
    }
  }

  lemma {:induction false} DrainTraffic(l: Ledger, tables: nat -> TableRead, i: nat)
    ensures TrafficFlows(Drain(l, tables, i).entries) == TrafficFlows(l.entries)
    decreases |l.queue|
  {
    if l.queue != [] {
      var process := LookupFor(tables(i), l.queue[0]);
      TrafficAppend(l.entries, Decision(process, l.queue[0]));
      DrainTraffic(Decide(l, process, l.queue[0]).(queue := l.queue[1..]), tables, i + 1);
    }
  }

  lemma AdvanceTraffic(l: Ledger, generation: TableRead, drain: nat -> TableRead, now: Instant)
    ensures TrafficFlows(Advance(l, LIMITS, generation, drain, now).entries) == TrafficFlows(l.entries)
  {
    ExpireTraffic(l, LIMITS.window, now);
    DrainTraffic(Expire(l, LIMITS.window, now).(lastGeneration := GenerationOf(generation)), drain, 0);
  }

  lemma PlaceTraffic(l: Ledger, o: Observation, read: TableRead)
    ensures TrafficFlows(Place(l, LIMITS.capacity, o, read).entries) == TrafficFlows(l.entries)
  {
    var process := if o.connection.None? then None else LookupProcess(read, o.connection.value.localSocket);
    TrafficAppend(l.entries, Decision(process, [o]));
    if l.queue != [] {
      TrafficAppend(l.entries, Decision(None, l.queue[0]));
    }
  }

  /** The ledger holds exactly the flows it was given, in order. */
  lemma {:induction false} LedgerTraffic(calls: seq<Call>)
    ensures TrafficFlows(Run(LIMITS, calls).entries) == FlowsIn(calls)
  {
    if calls != [] {
      var l, call := Run(LIMITS, calls[..|calls| - 1]), calls[|calls| - 1];
      LedgerTraffic(calls[..|calls| - 1]);
      match call
      case AdvanceCall(generation, drain, now) => AdvanceTraffic(l, generation, drain, now);
      case FlowCall(flow, tables, now, at) =>
        AdvanceTraffic(l, tables.generation, tables.drain, now);
        var advanced := Advance(l, LIMITS, tables.generation, tables.drain, now);
        var ends := Endpoints(flow, at, now, |advanced.entries|);
        TrafficAppend(advanced.entries, Traffic(flow, at, now));
        var posted := advanced.(entries := advanced.entries + [Traffic(flow, at, now)]);
        PlaceTraffic(posted, ends[0], tables.local);
        if |ends| == 2 {
          PlaceTraffic(Place(posted, LIMITS.capacity, ends[0], tables.local), ends[1], tables.peer);
        }
    }
  }

  lemma {:induction false} TrafficInFlows(entries: seq<Entry>, i: nat)
    requires i < |entries| && entries[i].Traffic?
    ensures entries[i].flow in TrafficFlows(entries)
  {
    if i < |entries| - 1 {
      TrafficInFlows(entries[..|entries| - 1], i);
    }
  }

  lemma {:induction false} MovedGrows(entries: seq<Entry>, more: seq<Entry>, d: Direction)
    requires Extends(more, entries)
    ensures Moved(entries, d) <= Moved(more, d)
    decreases |more|
  {
    if |entries| == |more| {
      assert more == entries;
    } else {
      assert more[..|more| - 1][..|entries|] == entries;
      MovedGrows(entries, more[..|more| - 1], d);
    }
  }

  lemma {:induction false} FlowsInPrefix(calls: seq<Call>, more: seq<Call>)
    requires IsPrefix(calls, more)
    ensures IsPrefix(FlowsIn(calls), FlowsIn(more))
    decreases |more|
  {
    if |calls| == |more| {
      assert calls == more;
    } else {
      assert more[..|more| - 1][..|calls|] == calls;
      FlowsInPrefix(calls, more[..|more| - 1]);
    }
  }

  lemma WellFormedCallsBalance(calls: seq<Call>, captured: seq<Flow>)
    requires IsPrefix(FlowsIn(calls), captured)
    requires forall flow :: flow in captured ==> WellFormed(flow)
    ensures AllWellFormed(Run(LIMITS, calls).entries)
    ensures Balanced(Run(LIMITS, calls), Inbound) && Balanced(Run(LIMITS, calls), Outbound)
  {
    var entries := Run(LIMITS, calls).entries;
    LedgerTraffic(calls);
    forall i | 0 <= i < |entries| && entries[i].Traffic? ensures WellFormed(entries[i].flow) {
      TrafficInFlows(entries, i);
      assert forall flow :: flow in FlowsIn(calls) ==> flow in captured;
    }
    RunBalancesExactlyWhenWellFormed(LIMITS, calls);
  }

  /**
   * At every moment of every interleaving, the attributor holds exactly the flows it was given; each
   * direction's interface bytes are decided or waiting, in at most 1024 groups; and whatever arrived a
   * second ago is decided.
   */
  lemma AttributorBalancesInTime(run: seq<State>, i: nat, o: Observation)
    requires IsRun(run) && i < |run|
    ensures var calls := run[i].agg.calls;
            var l := Run(Limits(1_000_000_000, 1024), calls);
            && TrafficFlows(l.entries) == FlowsIn(calls)
            && |l.queue| <= 1024
            && Balanced(l, Inbound) && Balanced(l, Outbound)
            && (calls != [] && Captured(l.entries, o) && o.arrived + 1_000_000_000 <= NowOf(calls[|calls| - 1]) ==>
                  Decided(l.entries, Is(o)) == 1)
  {
    var calls := run[i].agg.calls;
    RunKeepsInv(run, i);
    LedgerTraffic(calls);
    RunShape(LIMITS, calls);
    WellFormedCallsBalance(calls, run[i].cap.captured);
    if calls != [] && Captured(Run(LIMITS, calls).entries, o)
       && o.arrived + LIMITS.window <= NowOf(calls[|calls| - 1])
    {
      DecidedByDeadline(LIMITS, calls, o);
    }
  }

  ghost function Totals(calls: seq<Call>, d: Direction): nat {
    Moved(Run(LIMITS, calls).entries, d)
  }

  lemma DeliveredAreChained(s: State, a: nat, b: nat)
    requires SnapshotInv(s) && a <= b < |s.own.delivered|
    ensures var earlier, later := s.own.delivered[a], s.own.delivered[b];
            && IsPrefix(earlier.calls, later.calls) && IsPrefix(later.calls, s.agg.calls)
            && later.pendingBytes == PendingBytes(later.calls)
  {
    assert Stream(s)[a] == s.own.delivered[a] && Stream(s)[b] == s.own.delivered[b];
  }

  lemma RecordedArePrefix(s: State)
    requires FlowInv(s)
    ensures IsPrefix(FlowsIn(s.agg.calls), s.cap.captured)
  {
  }

  /** Delivered snapshots reflect ever longer runs of the attributor, on flows captured so far. */
  lemma DeliveredInOrder(run: seq<State>, i: nat, a: nat, b: nat)
    requires IsRun(run) && i < |run|
    requires a <= b < |run[i].own.delivered|
    ensures var earlier, later := run[i].own.delivered[a], run[i].own.delivered[b];
            && IsPrefix(earlier.calls, later.calls)
            && later.pendingBytes == PendingBytes(later.calls)
            && IsPrefix(FlowsIn(later.calls), run[i].cap.captured)
            && forall flow :: flow in run[i].cap.captured ==> WellFormed(flow)
  {
    var s := run[i];
    RunKeepsInv(run, i);
    var later := s.own.delivered[b];
    DeliveredAreChained(s, a, b);
    assert IsPrefix(FlowsIn(s.agg.calls), s.cap.captured) by {
      RecordedArePrefix(s);
    }
    FlowsInPrefix(later.calls, s.agg.calls);
    PrefixTransitive(FlowsIn(later.calls), FlowsIn(s.agg.calls), s.cap.captured);
  }

  /**
   * The snapshots the owner gets show totals that never fall, of a prefix of the flows captured;
   * and in each one, decided bytes plus the reported pending bytes are the interface totals.
   */
  lemma SnapshotsAreOrderedAndBalanced(run: seq<State>, i: nat, a: nat, b: nat, d: Direction)
    requires IsRun(run) && i < |run|
    requires a <= b < |run[i].own.delivered|
    ensures var earlier, later := run[i].own.delivered[a], run[i].own.delivered[b];
            var l := Run(Limits(1_000_000_000, 1024), later.calls);
            && Totals(earlier.calls, d) <= Totals(later.calls, d)
            && AllWellFormed(l.entries)
            && IsPrefix(TrafficFlows(l.entries), run[i].cap.captured)
            && Totals(later.calls, Inbound) + Totals(later.calls, Outbound) ==
               Decided(l.entries, BytesIn(Inbound)) + Decided(l.entries, BytesIn(Outbound)) + later.pendingBytes
  {
    var earlier, later := run[i].own.delivered[a], run[i].own.delivered[b];
    DeliveredInOrder(run, i, a, b);
    TotalsGrow(earlier.calls, later.calls, d);
    LedgerTraffic(later.calls);
    WellFormedCallsBalance(later.calls, run[i].cap.captured);
  }

  /** What a delivered snapshot is judged by. */
  lemma DeliveredTotals(run: seq<State>, i: nat, a: nat, b: nat)
    requires IsRun(run) && i < |run|
    requires a <= b < |run[i].own.delivered|
    ensures var earlier, later := run[i].own.delivered[a], run[i].own.delivered[b];
            && Totals(earlier.calls, Inbound) <= Totals(later.calls, Inbound)
            && Totals(earlier.calls, Outbound) <= Totals(later.calls, Outbound)
            && AllWellFormed(Run(LIMITS, earlier.calls).entries) && AllWellFormed(Run(LIMITS, later.calls).entries)
            && later.pendingBytes == PendingBytes(later.calls)
  {
    SnapshotsAreOrderedAndBalanced(run, i, a, a, Inbound);
    SnapshotsAreOrderedAndBalanced(run, i, a, b, Inbound);
    SnapshotsAreOrderedAndBalanced(run, i, a, b, Outbound);
    DeliveredInOrder(run, i, a, b);
  }

  lemma TotalsGrow(calls: seq<Call>, more: seq<Call>, d: Direction)
    requires IsPrefix(calls, more)
    ensures Totals(calls, d) <= Totals(more, d)
  {
    var rest := more[|calls|..];
    assert calls + rest == more;
    RunExtends(LIMITS, calls, rest);
    MovedGrows(Run(LIMITS, calls).entries, Run(LIMITS, more).entries, d);
  }

  lemma PrefixTransitive<T>(a: seq<T>, b: seq<T>, c: seq<T>)
    requires IsPrefix(a, b) && IsPrefix(b, c)
    ensures IsPrefix(a, c)
  {
    assert c[..|b|][..|a|] == c[..|a|];
  }
}
