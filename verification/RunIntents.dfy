/**
 * What a registered fail-and-stop intent guarantees, that intents are used up,
 * and that pending requests belong to waiting runs, which turns the promise to
 * settle once into a condition on the calls alone.
 */
module RunIntents {
  import opened Common
  import opened RunAdmission
  import opened RunLifecycle
  import opened AdmissionSafety
  import opened RunSettlement

  lemma InitialBookkeeping(env: Env, s: State)
    requires Initial(env, s)
    ensures PendingInv(s) && NoLeftoverIntent(s)
  {
  }

  /**
   * A fail-and-stop intent registered when the exit arrives decides the outcome:
   * the row ends failed with exactly that classification, whatever follows.
   */
  lemma IntentDecidesTheExit(env: Env, s: State, survivors: set<RunId>, settledBefore: set<RunId>, r: RunId, cleanExit: bool,
                             classification: Option<Classification>, trace: seq<Label>)
    requires env.Valid() && Inv(env, s, survivors) && LogAgrees(s, settledBefore) && NoStaleBinding(s, survivors)
    requires r in s.activeAdapters && r in s.failStopIntents
    requires var s1 := ExitedSegment(s, r, cleanExit, classification);
      IsRun(env, s1, trace) && Always(env, s1, trace, TameIn(env))
    ensures var end := After(env, ExitedSegment(s, r, cleanExit, classification), trace);
      && r in end.rows && end.rows[r].status == Failed && end.rows[r].classification == Some(s.failStopIntents[r])
      && TerminalEvents(end.settlements, r) == 1
  {
    var l := Exited(r, cleanExit, classification);
    var s1 := ExitedSegment(s, r, cleanExit, classification);
    assert Launched(s, r) && !SettledRow(s, r);
    assert SettledRow(s1, r) && s1.rows[r].classification == Some(s.failStopIntents[r]);
    assert r !in settledBefore;
    assert TicketInv(s) && PassInv(s) && Enabled(s, l) && Apply(env, s, l) == s1;
    TicketsAreInterrupted(s, l);
    hide CoreInv, AdmissionInv, LogAgrees, NoStaleBinding, ExitedSegment, Apply, Enabled, PromotesSettled;
    SegmentSettlesOnce(env, s, survivors, l);
    SegmentKeepsAdmission(env, s, l);
    StaleBindingExactly(env, s, survivors, l);
    assert !PromotesSettled(env, s, l) by { OnlyPassesPromote(env, s, l); }
    SettlesOnceKeepsLog(s, s1, settledBefore);
    EveryInterleavingSettlesOnce(env, s1, survivors, settledBefore, trace);
    LoggedOnce(After(env, s1, trace), settledBefore, r);
  }

  lemma OnlyPassesPromote(env: Env, s: State, l: Label)
    requires !l.PassJudged?
    ensures !PromotesSettled(env, s, l)
  {
  }

  lemma LoggedOnce(s: State, settledBefore: set<RunId>, r: RunId)
    requires LogAgrees(s, settledBefore) && SettledRow(s, r) && r !in settledBefore
    ensures TerminalEvents(s.settlements, r) == 1
  {
  }

  /** An intent is never left behind on a run that goes on: it is in use, or the row is settled. */
  ghost predicate NoLeftoverIntent(s: State) {
    forall r | r in s.failStopIntents :: r in s.failStops || SettledRow(s, r)
  }

  // An intent is new only while its fail-and-stop is in flight, and leaves with it.
  ghost predicate IntentStep(s: State, s': State) {
    forall r | r in s'.failStopIntents ::
      || r in s'.failStops
      || (r in s.failStopIntents && (r in s.failStops ==> SettledRow(s', r)))
  }

  lemma LaunchIntents(env: Env, s: State, l: Label)
    requires Enabled(s, l) && (l.LaunchStarted? || l.LaunchIdentified? || l.LaunchStopped?)
    ensures IntentStep(s, Apply(env, s, l))
  {
    match l
    case LaunchStarted(call, ok, classification) => LaunchStartedIntents(s, call, ok, classification);
    case LaunchIdentified(call) => LaunchIdentifiedIntents(s, call);
    case LaunchStopped(call) => hide SettledRow;
  }

  lemma LaunchStartedIntents(s: State, call: Call, ok: bool, classification: Option<Classification>)
    requires call in s.launches
    ensures IntentStep(s, LaunchStartedSegment(s, call, ok, classification))
  {
    hide SettledRow;
    if ok { hide EndLaunch, FinishFailed; }
  }

  lemma LaunchIdentifiedIntents(s: State, call: Call)
    requires call in s.launches
    ensures IntentStep(s, LaunchIdentifiedSegment(s, call))
  {
    hide SettledRow;
  }

  lemma StopTakesTheIntent(s: State, r: RunId)
    requires r in s.failStops
    ensures var s' := FailStopStoppedSegment(s, r, Stopped);
      s'.failStops == s.failStops - {r} && s'.failStopIntents.Keys <= s.failStopIntents.Keys
  {
    hide SettleRow, LeaveQueue;
  }

  lemma FailStopStoppedIntents(s: State, survivors: set<RunId>, r: RunId, outcome: StopOutcome)
    requires CoreInv(s, survivors) && r in s.failStops
    ensures IntentStep(s, FailStopStoppedSegment(s, r, outcome))
  {
    if outcome.Stopped? {
      var s' := FailStopStoppedSegment(s, r, outcome);
      FailStopStoppedSettles(s, survivors, r, outcome);
      StopTakesTheIntent(s, r);
      hide CoreInv, SettlesOnce, SettledRow, Settles, FailStopStoppedSegment;
    } else {
      hide CoreInv, SettlesOnce, SettleFailedStop;
    }
  }

  lemma FailStopProbedIntents(s: State, survivors: set<RunId>, r: RunId, alive: bool)
    requires CoreInv(s, survivors) && r in s.failStops
    ensures IntentStep(s, FailStopProbedSegment(s, r, alive))
  {
    FailStopProbedSettles(s, survivors, r, alive);
    hide CoreInv, SettlesOnce;
  }

  lemma FailAndStopIntents(s: State, r: RunId, intent: Classification, processManager: bool)
    ensures IntentStep(s, FailStopSegment(s, r, intent, processManager))
  {
  }

  lemma SettlingIntents(env: Env, s: State, l: Label)
    requires Enabled(s, l)
    requires l.Exited? || l.Cancel? || l.CancelReturned? || l.AdapterlessReturned? || l.PassListFailed?
    ensures IntentStep(s, Apply(env, s, l))
  {
    match l
    case Exited(r, cleanExit, classification) => ExitedIntents(s, r, cleanExit, classification);
    case Cancel(call, r) => CancelIntents(s, call, r);
    case CancelReturned(call, ok) => CancelReturnedIntents(s, call, ok);
    case AdapterlessReturned(_) => hide ExitedSegment, CancelSegment, CancelReturnedSegment;
    case PassListFailed => hide *; assert IntentStep(s, Apply(env, s, l)) by { ListFailedIntents(env, s); }
  }

  lemma ListFailedIntents(env: Env, s: State)
    requires Enabled(s, PassListFailed)
    ensures IntentStep(s, Apply(env, s, PassListFailed))
  {
  }

  lemma ExitedIntents(s: State, r: RunId, cleanExit: bool, classification: Option<Classification>)
    ensures IntentStep(s, ExitedSegment(s, r, cleanExit, classification))
  {
    if r in s.activeAdapters { } else { hide Settle; }
  }

  lemma CancelIntents(s: State, call: Call, r: RunId)
    ensures IntentStep(s, CancelSegment(s, call, r))
  {
    if r in s.rows && s.rows[r].status.Queued? { } else { hide CancelQueued; }
  }

  lemma CancelReturnedIntents(s: State, call: Call, ok: bool)
    requires call in s.cancels
    ensures IntentStep(s, CancelReturnedSegment(s, call, ok))
  {
    if ok { } else { hide Settle; }
  }

  lemma EnterIntents(s: State, call: Call, r: RunId, spec: Spec, caller: Caller, reason: Option<QueuedReason>)
    ensures var s' := Enter(s, call, r, spec, caller, reason);
      s'.failStopIntents == s.failStopIntents && s'.failStops == s.failStops
      && (forall q :: q != r ==> (SettledRow(s', q) <==> SettledRow(s, q)))
  {
    if reason.Some? { } else { }
  }

  lemma ResumeCommitIntents(env: Env, s: State, call: Call, r: RunId)
    requires r in s.rows ==> s.rows[r].status.Interrupted?
    ensures var s' := ResumeCommit(env, s, call, r);
      s'.failStopIntents == s.failStopIntents && s'.failStops == s.failStops
  {
    hide Enter, EntryReason, UnisolatedWriteConflict, WorktreeRunConflict;
    if r in s.rows { EnterIntents(s, call, r, s.rows[r].spec, ByResume, EntryReason(env, s.rows, s.rows[r].spec)); }
  }

  lemma EntryIntents(env: Env, s: State, l: Label)
    requires Enabled(s, l) && TicketInv(s) && (l.Start? || l.Resume? || l.ResumeReturned?)
    ensures var s' := Apply(env, s, l);
      s'.failStopIntents == s.failStopIntents && s'.failStops == s.failStops
  {
    hide Enter, EntryReason, UnisolatedWriteConflict, WorktreeRunConflict, ResumeCommit;
    if l.Start? {
      EnterIntents(s, l.call, l.run, l.spec, ByStart, EntryReason(env, s.rows, l.spec));
    } else if l.Resume? {
      if l.run in s.rows && s.rows[l.run].status.Interrupted? { ResumeCommitIntents(env, s, l.call, l.run); }
    } else {
      ResumeCommitIntents(env, s.(resumes := s.resumes - {l.call}), l.call, s.resumes[l.call]);
    }
  }

  lemma ListedIntents(s: State, order: seq<RunId>)
    ensures var s' := PassListedSegment(s, order); s'.failStopIntents == s.failStopIntents && s'.failStops == s.failStops
  {
    NextCandidateStays(s.(wakeUpsAtListing := s.wakeUps), ListActive(s.rows), order);
    hide NextCandidate;
  }

  lemma JudgedIntents(env: Env, s: State, call: Call, limitRead: bool)
    requires s.pass.Judging? && s.pass.candidate in s.pass.listed
    ensures var s' := PassJudgedSegment(env, s, call, limitRead); s'.failStopIntents == s.failStopIntents && s'.failStops == s.failStops
  {
    var Judging(listed, c, rest) := s.pass;
    var skip := SkipReason(env, RunningForLimits(listed), c, listed[c].spec);
    NextCandidateStays(if limitRead && skip.Some? then UpdateQueuedReason(s, c, listed[c].queuedReason, skip.value) else s, listed, rest);
    hide NextCandidate, SkipReason, SettledRow;
  }

  // Settled rows stay settled, overwritten or not.
  lemma SettledStays(env: Env, s: State, survivors: set<RunId>, l: Label)
    requires CoreInv(s, survivors) && PassInv(s) && Enabled(s, l) && NoOverlappingResume(s, l)
    ensures forall r | SettledRow(s, r) :: SettledRow(Apply(env, s, l), r)
  {
    var s' := Apply(env, s, l);
    SegmentSettlesOnce(env, s, survivors, l);
    if OverwritesSettled(s, l) {
      OtherSegmentMoves(env, s, l);
      forall r | SettledRow(s, r) ensures SettledRow(s', r) { assert QuietRow(s.rows[r], s'.rows[r]); }
    }
    hide Apply, Enabled, CoreInv, PassInv;
  }

  lemma SegmentIntents(env: Env, s: State, survivors: set<RunId>, l: Label)
    requires CoreInv(s, survivors) && PassInv(s) && Enabled(s, l)
    ensures IntentStep(s, Apply(env, s, l))
  {
    if l.Start? || l.Resume? || l.ResumeReturned? { EntryIntents(env, s, l); }
    else if l.LaunchStarted? || l.LaunchIdentified? || l.LaunchStopped? { LaunchIntents(env, s, l); }
    else if l.FailAndStop? { FailAndStopIntents(s, l.run, l.intent, l.processManager); }
    else if l.FailStopStopped? { FailStopStoppedIntents(s, survivors, l.run, l.outcome); }
    else if l.FailStopProbed? { FailStopProbedIntents(s, survivors, l.run, l.alive); }
    else if l.PassListed? { ListedIntents(s, l.order); }
    else if l.PassJudged? { JudgedIntents(env, s, l.call, l.limitRead); }
    else { SettlingIntents(env, s, l); }
    hide Apply, CoreInv, Enabled;
  }

  /** No intent outlives its fail-and-stop on an unsettled run, in any execution. */
  lemma {:induction false} IntentsAreUsedUp(env: Env, s: State, survivors: set<RunId>, trace: seq<Label>)
    requires env.Valid() && Inv(env, s, survivors) && NoLeftoverIntent(s)
    requires IsRun(env, s, trace) && Always(env, s, trace, NoOverlappingResume)
    ensures NoLeftoverIntent(After(env, s, trace))
    decreases |trace|
  {
    if trace != [] {
      var l := trace[0];
      var s1 := Apply(env, s, l);
      assert TicketInv(s) && PassInv(s);
      TicketsAreInterrupted(s, l);
      hide Apply, Enabled, CoreInv, AdmissionInv, SettledRow;
      SettledStays(env, s, survivors, l);
      SegmentIntents(env, s, survivors, l);
      assert NoLeftoverIntent(s1);
      SegmentSettlesOnce(env, s, survivors, l);
      SegmentKeepsAdmission(env, s, l);
      hide NoLeftoverIntent;
      IntentsAreUsedUp(env, s1, survivors, trace[1..]);
    }
  }

  // ---- conditions on the calls alone ----

  /** Pending requests belong to waiting runs, and a judged candidate still has its request. */
  ghost predicate PendingInv(s: State) {
    && (forall r | r in s.pendingRuns :: r in s.rows && s.rows[r].status.Queued?)
    && (s.pass.Judging? ==> s.pass.candidate in s.pendingRuns)
  }

  // Nobody cancels or stops a run while the queue pass reads its profile limit.
  ghost predicate SparesJudged(s: State, l: Label) {
    (l.Cancel? || l.FailAndStop?) && s.pass.Judging? ==> l.run != s.pass.candidate
  }

  lemma {:induction false} ScanPends(s: State, listed: Runs, rest: seq<RunId>)
    ensures var s' := NextCandidate(s, listed, rest);
      s'.pass.Judging? ==> s'.pass.candidate in s.pendingRuns
  {
    if rest != [] && rest[0] !in s.pendingRuns { ScanPends(s, listed, rest[1..]); }
  }

  lemma ListedPends(s: State, order: seq<RunId>)
    requires PendingInv(s)
    ensures PendingInv(PassListedSegment(s, order))
  {
    var s1 := s.(wakeUpsAtListing := s.wakeUps);
    ScanPends(s1, ListActive(s.rows), order);
    NextCandidateStays(s1, ListActive(s.rows), order);
    hide NextCandidate;
  }

  lemma JudgedPends(env: Env, s: State, call: Call, limitRead: bool)
    requires PendingInv(s) && Enabled(s, PassJudged(call, limitRead))
    ensures PendingInv(PassJudgedSegment(env, s, call, limitRead))
  {
    var Judging(listed, c, rest) := s.pass;
    var skip := SkipReason(env, RunningForLimits(listed), c, listed[c].spec);
    var s1 := if limitRead && skip.Some? then UpdateQueuedReason(s, c, listed[c].queuedReason, skip.value) else s;
    ScanPends(s1, listed, rest);
    NextCandidateStays(s1, listed, rest);
    hide NextCandidate, SkipReason, SettledRow;
    if limitRead && skip.None? { } else { hide BeginLaunch; }
  }

  lemma EnterPends(s: State, call: Call, r: RunId, spec: Spec, caller: Caller, reason: Option<QueuedReason>)
    requires PendingInv(s) && (r in s.rows ==> s.rows[r].status.Interrupted?)
    ensures PendingInv(Enter(s, call, r, spec, caller, reason))
  {
    assert r !in s.pendingRuns;
    if reason.Some? { } else { }
  }

  lemma EntryPends(env: Env, s: State, l: Label)
    requires PendingInv(s) && TicketInv(s) && Enabled(s, l) && (l.Start? || l.Resume? || l.ResumeReturned?)
    ensures PendingInv(Apply(env, s, l))
  {
    hide Enter, EntryReason, UnisolatedWriteConflict, WorktreeRunConflict;
    if l.Start? {
      if l.run !in s.rows { EnterPends(s, l.call, l.run, l.spec, ByStart, EntryReason(env, s.rows, l.spec)); }
    } else if l.Resume? {
      var r := l.run;
      if r in s.rows && s.rows[r].status.Interrupted? {
        EnterPends(s, l.call, r, s.rows[r].spec, ByResume, EntryReason(env, s.rows, s.rows[r].spec));
      }
    } else {
      var r := s.resumes[l.call];
      var s1 := s.(resumes := s.resumes - {l.call});
      EnterPends(s1, l.call, r, s.rows[r].spec, ByResume, EntryReason(env, s.rows, s.rows[r].spec));
    }
  }

  lemma LaunchStartedPends(s: State, call: Call, ok: bool, classification: Option<Classification>)
    requires PendingInv(s) && call in s.launches && Launched(s, s.launches[call].run)
    ensures PendingInv(LaunchStartedSegment(s, call, ok, classification))
  {
    if ok { hide EndLaunch; }
  }

  lemma LaunchIdentifiedPends(s: State, call: Call)
    requires PendingInv(s) && call in s.launches && Launched(s, s.launches[call].run)
    ensures PendingInv(LaunchIdentifiedSegment(s, call))
  {
    if s.rows[s.launches[call].run].status.Terminal() { hide EndLaunch; } else { hide AbandonLaunch; }
  }

  lemma LaunchStoppedPends(s: State, call: Call)
    requires PendingInv(s) && call in s.launches
    ensures PendingInv(EndLaunch(s, call, true))
  {
  }

  lemma ExitedPends(s: State, r: RunId, cleanExit: bool, classification: Option<Classification>)
    requires PendingInv(s) && (r in s.activeAdapters ==> Launched(s, r))
    ensures PendingInv(ExitedSegment(s, r, cleanExit, classification))
  {
  }

  lemma CancelPends(s: State, call: Call, r: RunId)
    requires PendingInv(s) && SparesJudged(s, Cancel(call, r))
    ensures PendingInv(CancelSegment(s, call, r))
  {
    if r in s.rows && s.rows[r].status.Queued? { } else { hide CancelQueued; }
  }

  lemma CancelReturnedPends(s: State, call: Call, ok: bool)
    requires PendingInv(s) && call in s.cancels && Launched(s, s.cancels[call])
    ensures PendingInv(CancelReturnedSegment(s, call, ok))
  {
    if ok { } else { hide Settle; }
  }

  lemma AdapterlessPends(s: State, r: RunId)
    requires PendingInv(s) && Launched(s, r)
    ensures PendingInv(AdapterlessSegment(s, r))
  {
  }

  lemma FailedStopPends(s: State, r: RunId, classification: Classification)
    requires PendingInv(s) && r !in s.pendingRuns
    ensures PendingInv(SettleFailedStop(s, r, classification))
  {
  }

  lemma FailStopPends(s: State, r: RunId, intent: Classification, processManager: bool)
    requires PendingInv(s) && SparesJudged(s, FailAndStop(r, intent, processManager))
    ensures PendingInv(FailStopSegment(s, r, intent, processManager))
  {
    hide SettleFailedStop;
    if StopsQueued(s, r) { FailedStopPends(s.(pendingRuns := s.pendingRuns - {r}), r, intent); }
  }

  lemma FailStopStoppedPends(s: State, r: RunId, outcome: StopOutcome)
    requires PendingInv(s) && r in s.failStops && Launched(s, r)
    ensures PendingInv(FailStopStoppedSegment(s, r, outcome))
  {
    hide SettleFailedStop;
    FailedStopPends(s.(failStops := s.failStops - {r}), r, s.failStops[r].classification);
  }

  lemma FailStopProbedPends(s: State, r: RunId, alive: bool)
    requires PendingInv(s) && r in s.failStops && Launched(s, r)
    ensures PendingInv(FailStopProbedSegment(s, r, alive))
  {
    hide SettleFailedStop;
    FailedStopPends(s.(failStops := s.failStops - {r}), r, s.failStops[r].classification);
  }

  lemma SegmentPends(env: Env, s: State, survivors: set<RunId>, l: Label)
    requires PendingInv(s) && CoreInv(s, survivors) && Enabled(s, l) && SparesJudged(s, l)
    ensures PendingInv(Apply(env, s, l))
  {
    assert LaunchInv(s) && TicketInv(s);
    hide PendingInv;
    match l
    case Exited(r, cleanExit, classification) => ExitedPends(s, r, cleanExit, classification);
    case Cancel(call, r) => CancelPends(s, call, r);
    case CancelReturned(call, ok) => CancelReturnedPends(s, call, ok);
    case AdapterlessReturned(r) => AdapterlessPends(s, r);
    case FailAndStop(r, intent, processManager) => FailStopPends(s, r, intent, processManager);
    case FailStopStopped(r, outcome) => FailStopStoppedPends(s, r, outcome);
    case FailStopProbed(r, alive) => FailStopProbedPends(s, r, alive);
    case PassListed(order) => ListedPends(s, order);
    case PassListFailed => ListFailedPends(env, s);
    case PassJudged(call, limitRead) => JudgedPends(env, s, call, limitRead);
    case LaunchStarted(call, ok, classification) => LaunchStartedPends(s, call, ok, classification);
    case LaunchIdentified(call) => LaunchIdentifiedPends(s, call);
    case LaunchStopped(call) => LaunchStoppedPends(s, call);
    case _ => EntryPends(env, s, l);
  }

  lemma ListFailedPends(env: Env, s: State)
    requires PendingInv(s) && Enabled(s, PassListFailed)
    ensures PendingInv(Apply(env, s, PassListFailed))
  {
  }

  // No resume overlaps another of its run, no cancel or stop falls into the limit
  // read of its run, no failed start and no adapterless return meets a settled row.
  ghost predicate Careful(s: State, l: Label) {
    && NoOverlappingResume(s, l)
    && SparesJudged(s, l)
    && (!l.Exited? ==> !OverwritesSettled(s, l))
  }

  /**
   * What the queue pass knows internally follows from the calls: when no cancel
   * or stop falls into the limit read of its run, no settled candidate is
   * promoted, and the settle-once promise holds.
   */
  lemma {:induction false} CarefulIsTame(env: Env, s: State, survivors: set<RunId>, trace: seq<Label>)
    requires env.Valid() && Inv(env, s, survivors) && PendingInv(s)
    requires IsRun(env, s, trace) && Always(env, s, trace, Careful)
    ensures Always(env, s, trace, TameIn(env))
    decreases |trace|
  {
    if trace != [] {
      var l := trace[0];
      assert Careful(s, l) && TicketInv(s) && PassInv(s);
      assert !PromotesSettled(env, s, l);
      TicketsAreInterrupted(s, l);
      hide Apply, Enabled, CoreInv, AdmissionInv, PendingInv, OverwritesSettled, PromotesSettled;
      SegmentPends(env, s, survivors, l);
      SegmentSettlesOnce(env, s, survivors, l);
      SegmentKeepsAdmission(env, s, l);
      CarefulIsTame(env, Apply(env, s, l), survivors, trace[1..]);
    }
  }
}
