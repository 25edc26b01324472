/** What a poll for the latest snapshot gives. */
module Deliveries {
  import opened Net
  import opened Ledgers
  import opened LedgerLaws
  import opened Pipelines

  predicate Polling(pc: OwnerPc) {
    pc.Draining? || pc.Reporting? || pc.Orphaned?
  }

  /** A poll for the latest snapshot that begins at moment `j` and has returned at moment `k`. */
  ghost predicate IsPoll(run: seq<State>, j: nat, k: nat) {
    && j + 1 < k < |run| && run[j].own.pc.Idle? && run[k].own.pc.Idle?
    && forall m :: j < m < k ==> Polling(run[m].own.pc)
  }

  /** How many of the published snapshots the owner has taken from the channel. */
  function Taken(s: State): int {
    |s.published| - |s.snapshots|
  }

  /** Until the owner lets go of it, the channel holds the newest published snapshots. */
  ghost predicate HoldsNewest(s: State) {
    !s.stop ==> 0 <= Taken(s) && s.snapshots == s.published[Taken(s)..]
  }

  lemma NextHoldsNewest(s: State, s': State)
    requires HoldsNewest(s) && (s.stop <==> OwnerDropping(s.own.pc)) && Next(s, s')
    ensures HoldsNewest(s')
  {
  }

  lemma {:induction false} RunHoldsNewest(run: seq<State>, i: nat)
    requires IsRun(run) && i < |run|
    ensures HoldsNewest(run[i])
  {
    if i == 0 {
      assert START.published[0..] == START.snapshots;
    } else {
      RunHoldsNewest(run, i - 1);
      NotStopped(run, i - 1);
      assert StepsTo(run, i);
      NextHoldsNewest(run[i - 1], run[i]);
    }
  }

  /** What a poll that began at `b` has done by `s`. */
  ghost predicate PollSoFar(b: State, s: State) {
    && s.own.delivered == b.own.delivered && s.own.errors == b.own.errors
    && Taken(b) <= Taken(s) && 0 <= Taken(s) <= |s.published|
    && (s.own.pc.Draining? || s.own.pc.Reporting? ==>
          s.own.pc.latest == if Taken(s) <= 0 || Taken(s) == Taken(b) then None else Some(s.published[Taken(s) - 1]))
  }

  lemma PollBegins(b: State, s: State)
    requires HoldsNewest(b) && !b.stop && Next(b, s) && b.own.pc.Idle? && Polling(s.own.pc)
    ensures PollSoFar(b, s) && s.own.pc.Draining?
  {
  }

  lemma PollStep(b: State, s: State, s': State)
    requires HoldsNewest(s) && !s.stop && 0 <= Taken(b)
    requires PollSoFar(b, s) && Next(s, s') && Polling(s.own.pc) && Polling(s'.own.pc)
    ensures PollSoFar(b, s')
    ensures !s'.own.pc.Draining? ==> Taken(s') == Taken(s)
    ensures s.own.pc.Draining? && !s'.own.pc.Draining? ==> s.snapshots == []
  {
  }

  /** A poll under way, and the moment at which it found the channel empty, if it has. */
  lemma {:induction false} PollProgress(run: seq<State>, j: nat, m: nat) returns (e: nat)
    requires IsRun(run) && j < m < |run| && run[j].own.pc.Idle?
    requires forall x :: j < x <= m ==> Polling(run[x].own.pc)
    ensures PollSoFar(run[j], run[m])
    ensures !run[m].own.pc.Draining? ==> j < e < m && run[e].snapshots == [] && Taken(run[e]) == Taken(run[m])
  {
    NotStopped(run, m - 1);
    RunHoldsNewest(run, m - 1);
    RunHoldsNewest(run, j);
    NotStopped(run, j);
    assert StepsTo(run, m);
    e := m - 1;
    if m == j + 1 {
      PollBegins(run[j], run[m]);
    } else {
      e := PollProgress(run, j, m - 1);
      PollStep(run[j], run[m - 1], run[m]);
      if run[m - 1].own.pc.Draining? {
        e := m - 1;
      }
    }
  }

  lemma NotStopped(run: seq<State>, i: nat)
    requires IsRun(run) && i < |run|
    ensures run[i].stop <==> OwnerDropping(run[i].own.pc)
    ensures run[i].own.pc.Orphaned? ==> run[i].failure.Some?
  {
    RunKeepsInv(run, i);
  }

  /**
   * A poll fails exactly when the failure cell is set as it is consulted, with what the cell holds.
   * Otherwise it delivers the newest snapshot published by the moment `e` at which it found the
   * channel empty, and nothing exactly when earlier polls had taken everything published by then.
   */
  lemma PollsDeliverNewest(run: seq<State>, j: nat, k: nat) returns (e: nat)
    requires IsRun(run) && IsPoll(run, j, k)
    ensures j < e < k && run[e].snapshots == []
    ensures var begun, ended, cell := run[j], run[k], run[k - 1].failure;
            var newest, takenBefore := run[e].published, |begun.published| - |begun.snapshots|;
            && 0 <= takenBefore <= |newest|
            && ended.own.errors == begun.own.errors + (if cell.Some? then [cell.value] else [])
            && ended.own.delivered == begun.own.delivered
                 + (if cell.None? && |newest| > takenBefore then [newest[|newest| - 1]] else [])
  {
    e := PollProgress(run, j, k - 1);
    NotStopped(run, k - 1);
    assert StepsTo(run, k);
    PollReturns(run[k - 1], run[k]);
    RunHoldsNewest(run, j);
    NotStopped(run, j);
    PublishedGrows(run, e, k - 1);
  }

  lemma PollReturns(s: State, s': State)
    requires Next(s, s') && Polling(s.own.pc) && s'.own.pc.Idle?
    requires s.own.pc.Orphaned? ==> s.failure.Some?
    ensures !s.own.pc.Draining? && s'.published == s.published
    ensures s.failure.None? ==> s.own.pc.Reporting?
    ensures s'.own.errors == s.own.errors + if s.failure.Some? then [s.failure.value] else []
    ensures s'.own.delivered ==
            s.own.delivered + if s.failure.None? && s.own.pc.latest.Some? then [s.own.pc.latest.value] else []
  {
  }

  lemma {:induction false} PublishedGrows(run: seq<State>, i: nat, k: nat)
    requires IsRun(run) && i <= k < |run|
    ensures IsPrefix(run[i].published, run[k].published)
    decreases k
  {
    if i < k {
      PublishedGrows(run, i, k - 1);
      assert StepsTo(run, k);
      PublishedStep(run[k - 1], run[k]);
      PrefixTransitive(run[i].published, run[k - 1].published, run[k].published);
    }
  }

  lemma PublishedStep(s: State, s': State)
    requires Next(s, s')
    ensures IsPrefix(s.published, s'.published)
  {
  }

  lemma IdleTakesNothing(s: State, s': State)
    requires Next(s, s') && s.own.pc.Idle? && s'.own.pc.Idle?
    ensures Taken(s') == Taken(s) && |s'.published| >= |s.published|
  {
  }

  lemma {:induction false} NothingTakenYet(run: seq<State>, j: nat)
    requires IsRun(run) && j < |run|
    requires forall m :: 0 <= m <= j ==> run[m].own.pc.Idle?
    ensures Taken(run[j]) == 0 && |run[j].published| >= 1
  {
    if j > 0 {
      NothingTakenYet(run, j - 1);
      assert StepsTo(run, j);
      IdleTakesNothing(run[j - 1], run[j]);
    }
  }

  /** The first poll of a run already delivers a snapshot, unless it fails. */
  lemma FirstPollDelivers(run: seq<State>, j: nat, k: nat)
    requires IsRun(run) && IsPoll(run, j, k)
    requires forall m :: 0 <= m <= j ==> run[m].own.pc.Idle?
    requires run[k - 1].failure.None?
    ensures |run[k].own.delivered| == |run[j].own.delivered| + 1
  {
    var e := PollsDeliverNewest(run, j, k);
    NothingTakenYet(run, j);
    PublishedGrows(run, j, e);
  }
}
