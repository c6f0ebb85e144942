/**
 * The reason a waiting run shows (queuedReason): exactly when one is left on a
 * row that no longer waits, and that a waiting row shows the verdict of the last
 * scan that judged it.
 */
module RunReasons {
  import opened Common
  import opened RunAdmission
  import opened RunLifecycle
  import opened AdmissionSafety
  import opened RunQueue
  import opened RunSettlement
  import opened RunIntents

  // ---- reasons on rows that do not wait ----

  /** Only a row that waits shows a reason. */
  ghost predicate OnlyWaitingShow(s: State) {
    forall r | r in s.rows && s.rows[r].queuedReason.Some? :: s.rows[r].status.Queued?
  }

  // The pass skips a candidate that has left the queue, for another reason than the listed one.
  ghost predicate WritesLate(env: Env, s: State, l: Label) {
    && l.PassJudged? && s.pass.Judging? && s.pass.candidate in s.pass.listed
    && Verdict(env, s, l.limitRead).Some?
    && Verdict(env, s, l.limitRead) != s.pass.listed[s.pass.candidate].queuedReason
    && s.pass.candidate in s.rows && !s.rows[s.pass.candidate].status.Queued?
  }

  // A row that does not wait afterwards shows what it showed before, or nothing
  // if it waited; `late` is left out.
  ghost predicate ReasonStep(rows: Runs, rows': Runs, late: set<RunId>) {
    && (forall r | r in rows' && !rows'[r].status.Queued? && r !in late ::
          || rows'[r].queuedReason.None?
          || (r in rows && !rows[r].status.Queued? && rows'[r].queuedReason == rows[r].queuedReason))
    && (forall r | r in rows && rows[r].status in {Completed, Failed, Cancelled} ::
          r in rows' && (rows[r].queuedReason.Some? ==> rows'[r].queuedReason.Some?))
  }

  lemma ReasonStepKeeps(s: State, s': State)
    requires OnlyWaitingShow(s) && ReasonStep(s.rows, s'.rows, {})
    ensures OnlyWaitingShow(s')
  {
  }

  lemma SettlingReasons(rows: Runs, r: RunId, status: Status, classification: Option<Classification>)
    requires status in {Completed, Failed, Cancelled}
    ensures r in rows && !rows[r].status.Queued? ==> ReasonStep(rows, SettleRow(rows, r, status, classification), {})
    ensures r in rows && !rows[r].status.Terminal() ==> ReasonStep(rows, LeaveQueue(SettleRow(rows, r, status, classification), r), {})
  {
  }

  lemma ExitedReasons(s: State, r: RunId, cleanExit: bool, classification: Option<Classification>)
    requires r in s.activeAdapters ==> Launched(s, r)
    ensures ReasonStep(s.rows, ExitedSegment(s, r, cleanExit, classification).rows, {})
  {
    var s' := ExitedSegment(s, r, cleanExit, classification);
    if r in s.activeAdapters {
      var x := s'.settlements[|s.settlements|];
      SettlingReasons(s.rows, r, x.status, x.classification);
      hide SettleRow, ReasonStep;
    }
  }

  lemma CancelReasons(s: State, call: Call, r: RunId)
    ensures ReasonStep(s.rows, CancelSegment(s, call, r).rows, {})
  {
    if r in s.rows && s.rows[r].status.Queued? {
      SettlingReasons(s.rows, r, Cancelled, None);
      hide SettleRow, LeaveQueue, ReasonStep;
    } else {
      hide CancelQueued;
    }
  }

  lemma CancelReturnedReasons(s: State, call: Call, ok: bool)
    requires call in s.cancels && Launched(s, s.cancels[call])
    ensures ReasonStep(s.rows, CancelReturnedSegment(s, call, ok).rows, {})
  {
    SettlingReasons(s.rows, s.cancels[call], Cancelled, None);
    hide SettleRow;
  }

  lemma AdapterlessReasons(s: State, r: RunId)
    requires Launched(s, r)
    ensures ReasonStep(s.rows, AdapterlessSegment(s, r).rows, {})
  {
    SettlingReasons(s.rows, r, Cancelled, None);
    hide SettleRow, ReasonStep;
  }

  lemma FailedStopReasons(s: State, r: RunId, classification: Classification)
    requires r in s.rows && !s.rows[r].status.Terminal()
    ensures ReasonStep(s.rows, SettleFailedStop(s, r, classification).rows, {})
  {
    SettlingReasons(s.rows, r, Failed, Some(classification));
    hide SettleRow, LeaveQueue, ReasonStep;
  }

  lemma FailStopReasons(s: State, r: RunId, intent: Classification, processManager: bool)
    ensures ReasonStep(s.rows, FailStopSegment(s, r, intent, processManager).rows, {})
  {
    hide SettleFailedStop;
    if StopsQueued(s, r) { FailedStopReasons(s.(pendingRuns := s.pendingRuns - {r}), r, intent); }
  }

  lemma FailStopStoppedReasons(s: State, r: RunId, outcome: StopOutcome)
    requires r in s.failStops
    ensures ReasonStep(s.rows, FailStopStoppedSegment(s, r, outcome).rows, {})
  {
    hide SettleFailedStop;
    var s1 := s.(failStops := s.failStops - {r});
    if r in s.rows && !s.rows[r].status.Terminal() { FailedStopReasons(s1, r, s.failStops[r].classification); }
  }

  lemma FailStopProbedReasons(s: State, r: RunId, alive: bool)
    requires r in s.failStops
    ensures ReasonStep(s.rows, FailStopProbedSegment(s, r, alive).rows, {})
  {
    hide SettleFailedStop;
    var s1 := s.(failStops := s.failStops - {r});
    if r in s.rows && !s.rows[r].status.Terminal() { FailedStopReasons(s1, r, s.failStops[r].classification); }
  }

  lemma LaunchStartedReasons(s: State, call: Call, ok: bool, classification: Option<Classification>)
    requires call in s.launches && Launched(s, s.launches[call].run)
    ensures ReasonStep(s.rows, LaunchStartedSegment(s, call, ok, classification).rows, {})
  {
    if ok {
      hide EndLaunch;
    } else {
      SettlingReasons(s.rows, s.launches[call].run, Failed, classification);
      hide SettleRow, ReasonStep;
    }
  }

  lemma LaunchIdentifiedReasons(s: State, call: Call)
    requires call in s.launches && Launched(s, s.launches[call].run)
    ensures ReasonStep(s.rows, LaunchIdentifiedSegment(s, call).rows, {})
  {
    if s.rows[s.launches[call].run].status.Terminal() { hide EndLaunch; } else { hide AbandonLaunch; }
  }

  lemma LaunchStoppedReasons(s: State, call: Call)
    requires call in s.launches
    ensures ReasonStep(s.rows, EndLaunch(s, call, true).rows, {})
  {
  }

  lemma EnterReasons(s: State, call: Call, r: RunId, spec: Spec, caller: Caller, reason: Option<QueuedReason>)
    requires r in s.rows ==> s.rows[r].status.Interrupted?
    ensures ReasonStep(s.rows, Enter(s, call, r, spec, caller, reason).rows, {})
  {
    if reason.Some? { } else { }
  }

  lemma EntryReasons(env: Env, s: State, l: Label)
    requires Enabled(s, l) && ResumesInterrupted(s, l) && (l.Start? || l.Resume? || l.ResumeReturned?)
    ensures ReasonStep(s.rows, Apply(env, s, l).rows, {})
  {
    hide Enter, EntryReason, UnisolatedWriteConflict, WorktreeRunConflict;
    match l
    case Start(call, r, spec, initialized) =>
      if r !in s.rows { EnterReasons(s, call, r, spec, ByStart, EntryReason(env, s.rows, spec)); }
    case Resume(call, r) =>
      if r in s.rows && s.rows[r].status.Interrupted? {
        EnterReasons(s, call, r, s.rows[r].spec, ByResume, EntryReason(env, s.rows, s.rows[r].spec));
      }
    case ResumeReturned(call, profileOk) =>
      var r := s.resumes[call];
      var s1 := s.(resumes := s.resumes - {call});
      if profileOk && r in s.rows { EnterReasons(s1, call, r, s.rows[r].spec, ByResume, EntryReason(env, s.rows, s.rows[r].spec)); }
  }

  lemma ListedReasonStep(s: State, order: seq<RunId>)
    ensures ReasonStep(s.rows, PassListedSegment(s, order).rows, {})
  {
    NextCandidateStays(s.(wakeUpsAtListing := s.wakeUps), ListActive(s.rows), order);
    hide NextCandidate;
  }

  // The rows after a judgement with a verdict, and after one without.
  lemma SkippedRows(env: Env, s: State, call: Call, limitRead: bool)
    requires Enabled(s, PassJudged(call, limitRead)) && Verdict(env, s, limitRead).Some?
    ensures var c := s.pass.candidate;
      PassJudgedSegment(env, s, call, limitRead).rows
      == UpdateQueuedReason(s, c, s.pass.listed[c].queuedReason, Verdict(env, s, limitRead).value).rows
  {
    var Judging(listed, c, rest) := s.pass;
    NextCandidateStays(UpdateQueuedReason(s, c, listed[c].queuedReason, Verdict(env, s, limitRead).value), listed, rest);
    hide NextCandidate, SkipReason, UpdateQueuedReason;
  }

  lemma UnskippedRows(env: Env, s: State, call: Call, limitRead: bool)
    requires Enabled(s, PassJudged(call, limitRead)) && Verdict(env, s, limitRead).None?
    ensures var c := s.pass.candidate; var rows' := PassJudgedSegment(env, s, call, limitRead).rows;
      || rows' == s.rows
      || (c in s.rows && s.rows[c].status.Queued? && rows' == s.rows[c := s.rows[c].(status := Preparing, queuedReason := None)])
  {
    var Judging(listed, c, rest) := s.pass;
    NextCandidateStays(s, listed, rest);
    hide NextCandidate, SkipReason;
    if limitRead {
      if c in s.rows {
        PromotionShape(env, s, call);
        hide PassJudgedSegment;
      } else {
        hide BeginLaunch;
      }
    } else {
      hide BeginLaunch, UpdateQueuedReason;
    }
  }

  // The candidate of a judgement waits or is settled.
  lemma CandidateStatus(s: State)
    requires PassInv(s) && s.pass.Judging?
    ensures var c := s.pass.candidate;
      c in s.pass.listed && s.pass.listed[c].status.Queued? && c in s.rows && s.rows[c].status in {Queued, Completed, Failed, Cancelled}
  {
    assert s.pass.candidate in [s.pass.candidate] + s.pass.rest;
  }

  lemma SkippingReasons(s: State, c: RunId, known: Option<QueuedReason>, reason: QueuedReason)
    ensures var late := known != Some(reason) && c in s.rows && !s.rows[c].status.Queued?;
      var rows' := UpdateQueuedReason(s, c, known, reason).rows;
      && ReasonStep(s.rows, rows', if late then {c} else {})
      && (late ==> c in rows' && rows'[c].queuedReason.Some?)
  {
  }

  lemma PromotingReasons(rows: Runs, rows': Runs, c: RunId)
    requires || rows' == rows
             || (c in rows && rows[c].status.Queued? && rows' == rows[c := rows[c].(status := Preparing, queuedReason := None)])
    ensures ReasonStep(rows, rows', {})
  {
  }

  lemma JudgedReasons(env: Env, s: State, call: Call, limitRead: bool)
    requires PassInv(s) && Enabled(s, PassJudged(call, limitRead))
    ensures var l := PassJudged(call, limitRead); var s' := PassJudgedSegment(env, s, call, limitRead);
      && ReasonStep(s.rows, s'.rows, if WritesLate(env, s, l) then {s.pass.candidate} else {})
      && (WritesLate(env, s, l) ==> s.pass.candidate in s'.rows && s'.rows[s.pass.candidate].queuedReason.Some?)
  {
    var c := s.pass.candidate;
    if Verdict(env, s, limitRead).Some? {
      SkippedRows(env, s, call, limitRead);
      SkippingReasons(s, c, s.pass.listed[c].queuedReason, Verdict(env, s, limitRead).value);
    } else {
      UnskippedRows(env, s, call, limitRead);
      hide ReasonStep, PassJudgedSegment, Verdict;
      PromotingReasons(s.rows, PassJudgedSegment(env, s, call, limitRead).rows, c);
    }
    hide PassJudgedSegment, Verdict, ReasonStep, UpdateQueuedReason, PassInv;
  }

  lemma SegmentReasons(env: Env, s: State, survivors: set<RunId>, l: Label)
    requires CoreInv(s, survivors) && PassInv(s) && Enabled(s, l)
    ensures ReasonStep(s.rows, Apply(env, s, l).rows, if WritesLate(env, s, l) then {s.pass.candidate} else {})
  {
    assert LaunchInv(s) && TicketInv(s);
    TicketsAreInterrupted(s, l);
    hide ReasonStep, PassInv, WritesLate;
    if l.PassJudged? {
      JudgedReasons(env, s, l.call, l.limitRead);
    } else {
      assert !WritesLate(env, s, l) by { OnlyJudgementsWriteLate(env, s, l); }
      match l
      case Exited(r, cleanExit, classification) => ExitedReasons(s, r, cleanExit, classification);
      case Cancel(call, r) => CancelReasons(s, call, r);
      case CancelReturned(call, ok) => CancelReturnedReasons(s, call, ok);
      case AdapterlessReturned(r) => AdapterlessReasons(s, r);
      case FailAndStop(r, intent, processManager) => FailStopReasons(s, r, intent, processManager);
      case FailStopStopped(r, outcome) => FailStopStoppedReasons(s, r, outcome);
      case FailStopProbed(r, alive) => FailStopProbedReasons(s, r, alive);
      case PassListed(order) => ListedReasonStep(s, order);
      case PassListFailed => ListFailedReasons(env, s);
      case LaunchStarted(call, ok, classification) =>
        assert Launched(s, s.launches[call].run);
        LaunchStartedReasons(s, call, ok, classification);
      case LaunchIdentified(call) =>
        assert Launched(s, s.launches[call].run);
        LaunchIdentifiedReasons(s, call);
      case LaunchStopped(call) => LaunchStoppedReasons(s, call);
      case _ => EntryReasons(env, s, l);
    }
  }

  lemma OnlyJudgementsWriteLate(env: Env, s: State, l: Label)
    requires !l.PassJudged?
    ensures !WritesLate(env, s, l)
  {
  }

  lemma ListFailedReasons(env: Env, s: State)
    requires Enabled(s, PassListFailed)
    ensures ReasonStep(s.rows, Apply(env, s, PassListFailed).rows, {})
  {
  }

  // A settled row that shows a reason; it shows one for good.
  ghost predicate ShowsForGood(s: State, r: RunId) {
    SettledRow(s, r) && s.rows[r].queuedReason.Some?
  }

  /**
   * A segment leaves a reason on a row that does not wait exactly when it is a
   * judgement that skips a candidate settled meanwhile, for a reason that differs
   * from the listed one.
   */
  lemma LateReasonExactly(env: Env, s: State, survivors: set<RunId>, l: Label)
    requires CoreInv(s, survivors) && PassInv(s) && Enabled(s, l) && OnlyWaitingShow(s)
    ensures OnlyWaitingShow(Apply(env, s, l)) <==> !WritesLate(env, s, l)
    ensures WritesLate(env, s, l) ==> ShowsForGood(Apply(env, s, l), s.pass.candidate)
  {
    if WritesLate(env, s, l) {
      CandidateStatus(s);
      JudgedReasons(env, s, l.call, l.limitRead);
      var s' := PassJudgedSegment(env, s, l.call, l.limitRead);
      SkippedRowKeepsStatus(env, s, l.call, l.limitRead);
      hide PassJudgedSegment, PassInv, CoreInv, Verdict;
      assert ShowsForGood(s', s.pass.candidate);
    } else {
      SegmentReasons(env, s, survivors, l);
      hide Apply, PassInv, CoreInv, WritesLate, Enabled;
      ReasonStepKeeps(s, Apply(env, s, l));
    }
  }

  lemma SkippedRowKeepsStatus(env: Env, s: State, call: Call, limitRead: bool)
    requires Enabled(s, PassJudged(call, limitRead)) && Verdict(env, s, limitRead).Some?
    ensures var s' := PassJudgedSegment(env, s, call, limitRead);
      s'.rows.Keys == s.rows.Keys && forall r | r in s.rows :: s'.rows[r].status == s.rows[r].status
  {
    SkippedRows(env, s, call, limitRead);
    hide PassJudgedSegment, Verdict;
  }

  ghost function NeverLate(env: Env): (State, Label) -> bool { (s, l) => !WritesLate(env, s, l) }

  lemma {:induction false} ShownForGood(env: Env, s: State, survivors: set<RunId>, r: RunId, trace: seq<Label>)
    requires env.Valid() && Inv(env, s, survivors) && ShowsForGood(s, r)
    requires IsRun(env, s, trace) && Always(env, s, trace, NoOverlappingResume)
    ensures ShowsForGood(After(env, s, trace), r)
    decreases |trace|
  {
    if trace != [] {
      var l := trace[0];
      assert TicketInv(s) && PassInv(s);
      TicketsAreInterrupted(s, l);
      hide Apply, Enabled, CoreInv, AdmissionInv;
      SegmentReasons(env, s, survivors, l);
      SettledStays(env, s, survivors, l);
      assert ShowsForGood(Apply(env, s, l), r);
      SegmentSettlesOnce(env, s, survivors, l);
      SegmentKeepsAdmission(env, s, l);
      ShownForGood(env, Apply(env, s, l), survivors, r, trace[1..]);
    }
  }

  /** Over whole executions: at the end only waiting rows show a reason exactly when no judgement wrote one late. */
  lemma {:induction false} OnlyWaitingShowIff(env: Env, s: State, survivors: set<RunId>, trace: seq<Label>)
    requires env.Valid() && Inv(env, s, survivors) && OnlyWaitingShow(s)
    requires IsRun(env, s, trace) && Always(env, s, trace, NoOverlappingResume)
    ensures OnlyWaitingShow(After(env, s, trace)) <==> Always(env, s, trace, NeverLate(env))
    decreases |trace|
  {
    if trace != [] {
      var l := trace[0];
      var s1 := Apply(env, s, l);
      assert TicketInv(s) && PassInv(s);
      TicketsAreInterrupted(s, l);
      hide Apply, Enabled, CoreInv, AdmissionInv, WritesLate;
      LateReasonExactly(env, s, survivors, l);
      SegmentSettlesOnce(env, s, survivors, l);
      SegmentKeepsAdmission(env, s, l);
      assert NeverLate(env)(s, l) <==> !WritesLate(env, s, l);
      if WritesLate(env, s, l) {
        ShownForGood(env, s1, survivors, s.pass.candidate, trace[1..]);
        assert !OnlyWaitingShow(After(env, s1, trace[1..])) by { hide *; SettledDoesNotWait(After(env, s1, trace[1..]), s.pass.candidate); }
      } else {
        OnlyWaitingShowIff(env, s1, survivors, trace[1..]);
      }
    }
  }

  lemma SettledDoesNotWait(s: State, r: RunId)
    requires ShowsForGood(s, r)
    ensures !OnlyWaitingShow(s)
  {
  }

  // No cancel or stop falls into the limit read of its run.
  ghost predicate Sparing(s: State, l: Label) {
    NoOverlappingResume(s, l) && SparesJudged(s, l)
  }

  /** In particular when no cancel or stop falls into the limit read of its run. */
  lemma {:induction false} SparingIsNeverLate(env: Env, s: State, survivors: set<RunId>, trace: seq<Label>)
    requires env.Valid() && Inv(env, s, survivors) && PendingInv(s)
    requires IsRun(env, s, trace) && Always(env, s, trace, Sparing)
    ensures Always(env, s, trace, NeverLate(env)) && Always(env, s, trace, NoOverlappingResume)
    decreases |trace|
  {
    if trace != [] {
      var l := trace[0];
      assert TicketInv(s) && PassInv(s);
      assert !WritesLate(env, s, l);
      TicketsAreInterrupted(s, l);
      hide Apply, Enabled, CoreInv, AdmissionInv, PendingInv, WritesLate;
      SegmentPends(env, s, survivors, l);
      SegmentSettlesOnce(env, s, survivors, l);
      SegmentKeepsAdmission(env, s, l);
      SparingIsNeverLate(env, Apply(env, s, l), survivors, trace[1..]);
    }
  }

  // ---- the last verdict ----

  type Verdicts = map<RunId, QueuedReason>

  // History: the last reason a judgement computed for each run.
  ghost function Recorded(env: Env, s: State, l: Label, verdicts: Verdicts): Verdicts
    requires Enabled(s, l)
  {
    if l.PassJudged? && Verdict(env, s, l.limitRead).Some?
    then verdicts[s.pass.candidate := Verdict(env, s, l.limitRead).value]
    else verdicts
  }

  ghost function LastVerdicts(env: Env, s: State, trace: seq<Label>, verdicts: Verdicts): Verdicts
    requires IsRun(env, s, trace)
    decreases |trace|
  {
    if trace == [] then verdicts
    else LastVerdicts(env, Apply(env, s, trace[0]), trace[1..], Recorded(env, s, trace[0], verdicts))
  }

  /** A judged run that still waits shows the last verdict; and no judged run can be resumed into the queue again. */
  ghost predicate ShowVerdicts(s: State, verdicts: Verdicts) {
    forall r | r in verdicts ::
      && r in s.rows && !s.rows[r].status.Interrupted?
      && (s.rows[r].status.Queued? ==> s.rows[r].queuedReason == Some(verdicts[r]))
  }

  // Rows stay, and none becomes interrupted.
  ghost predicate NoneInterrupted(rows: Runs, rows': Runs) {
    forall r | r in rows :: r in rows' && (rows'[r].status.Interrupted? ==> rows[r].status.Interrupted?)
  }

  lemma EnterInterruptsNone(s: State, call: Call, r: RunId, spec: Spec, caller: Caller, reason: Option<QueuedReason>)
    ensures NoneInterrupted(s.rows, Enter(s, call, r, spec, caller, reason).rows)
  {
    if reason.Some? { } else { }
  }

  lemma EntryInterruptsNone(env: Env, s: State, l: Label)
    requires Enabled(s, l) && (l.Start? || l.Resume? || l.ResumeReturned?)
    ensures NoneInterrupted(s.rows, Apply(env, s, l).rows)
  {
    hide Enter, EntryReason, UnisolatedWriteConflict, WorktreeRunConflict;
    match l
    case Start(call, r, spec, initialized) => EnterInterruptsNone(s, call, r, spec, ByStart, EntryReason(env, s.rows, spec));
    case Resume(call, r) =>
      if r in s.rows { EnterInterruptsNone(s, call, r, s.rows[r].spec, ByResume, EntryReason(env, s.rows, s.rows[r].spec)); }
    case ResumeReturned(call, profileOk) =>
      var r := s.resumes[call];
      var s1 := s.(resumes := s.resumes - {call});
      if r in s.rows { EnterInterruptsNone(s1, call, r, s.rows[r].spec, ByResume, EntryReason(env, s.rows, s.rows[r].spec)); }
  }

  lemma QuietInterruptsNone(s: State, s': State)
    requires Quiet(s, s')
    ensures NoneInterrupted(s.rows, s'.rows)
  {
    forall r | r in s.rows ensures r in s'.rows && (s'.rows[r].status.Interrupted? ==> s.rows[r].status.Interrupted?) {
      assert QuietRow(s.rows[r], s'.rows[r]);
    }
  }

  lemma PassInterruptsNone(env: Env, s: State, l: Label)
    requires Enabled(s, l) && (l.PassListed? || l.PassJudged?)
    ensures NoneInterrupted(s.rows, Apply(env, s, l).rows)
  {
    if l.PassListed? {
      NextCandidateStays(s.(wakeUpsAtListing := s.wakeUps), ListActive(s.rows), l.order);
      hide NextCandidate;
    } else {
      if Verdict(env, s, l.limitRead).Some? {
        SkippedRows(env, s, l.call, l.limitRead);
      } else {
        UnskippedRows(env, s, l.call, l.limitRead);
      }
      hide PassJudgedSegment, Verdict;
    }
  }

  lemma SegmentInterruptsNone(env: Env, s: State, l: Label)
    requires Enabled(s, l) && LaunchInv(s)
    ensures NoneInterrupted(s.rows, Apply(env, s, l).rows)
  {
    if l.Start? || l.Resume? || l.ResumeReturned? {
      EntryInterruptsNone(env, s, l);
    } else if l.PassListed? || l.PassJudged? {
      PassInterruptsNone(env, s, l);
    } else {
      OtherSegmentMoves(env, s, l);
      hide Apply, Enabled, NoneInterrupted;
      QuietInterruptsNone(s, Apply(env, s, l));
    }
  }

  // Rows of other runs keep their reason or leave the queue.
  lemma OthersShow(s: State, s': State, verdicts: Verdicts, judged: set<RunId>)
    requires ShowVerdicts(s, verdicts) && KeepsWaiting(s, s', judged) && NoneInterrupted(s.rows, s'.rows)
    ensures forall r | r in verdicts && r !in judged ::
      && r in s'.rows && !s'.rows[r].status.Interrupted?
      && (s'.rows[r].status.Queued? ==> s'.rows[r].queuedReason == Some(verdicts[r]))
  {
  }

  lemma JudgementShows(env: Env, s: State, call: Call, limitRead: bool, verdicts: Verdicts)
    requires PassInv(s) && ListedReasons(s) && ShowVerdicts(s, verdicts) && Enabled(s, PassJudged(call, limitRead))
    ensures ShowVerdicts(PassJudgedSegment(env, s, call, limitRead), Recorded(env, s, PassJudged(call, limitRead), verdicts))
  {
    hide PassJudgedSegment, KeepsWaiting, ListedReasons;
    var s' := PassJudgedSegment(env, s, call, limitRead);
    var c := s.pass.candidate;
    CandidateStatus(s);
    PassInterruptsNone(env, s, PassJudged(call, limitRead));
    if Verdict(env, s, limitRead).Some? {
      JudgedQueue(env, s, call, limitRead);
      OthersShow(s, s', verdicts, {c});
      SkippedRowKeepsStatus(env, s, call, limitRead);
      if s.rows[c].status.Queued? { JudgementStoresItsReason(env, s, call, limitRead); }
    } else {
      UnjudgedKeepsWaiting(env, s, call, limitRead);
      OthersShow(s, s', verdicts, {});
    }
    hide Verdict, PassInv;
  }

  // Without a verdict the candidate keeps its row or is promoted out of the queue.
  lemma UnjudgedKeepsWaiting(env: Env, s: State, call: Call, limitRead: bool)
    requires Enabled(s, PassJudged(call, limitRead)) && Verdict(env, s, limitRead).None?
    ensures KeepsWaiting(s, PassJudgedSegment(env, s, call, limitRead), {})
  {
    UnskippedRows(env, s, call, limitRead);
    hide PassJudgedSegment, Verdict;
  }

  lemma SegmentShows(env: Env, s: State, l: Label, verdicts: Verdicts)
    requires env.Valid() && AdmissionInv(env, s) && ListedReasons(s) && ShowVerdicts(s, verdicts)
    requires Enabled(s, l) && ResumesInterrupted(s, l)
    ensures ShowVerdicts(Apply(env, s, l), Recorded(env, s, l, verdicts))
  {
    assert LaunchInv(s) && PassInv(s);
    hide AdmissionInv, ListedReasons, ShowVerdicts;
    if l.PassJudged? {
      JudgementShows(env, s, l.call, l.limitRead, verdicts);
    } else if l.PassListFailed? {
      RowsShow(s, Apply(env, s, l), verdicts);
    } else {
      SegmentKeepsQueue(env, s, l);
      SegmentInterruptsNone(env, s, l);
      assert Judged(s, l) == {};
      hide Apply, Enabled, LaunchInv, PassInv;
      OthersShow(s, Apply(env, s, l), verdicts, {});
      AllShow(Apply(env, s, l), verdicts);
    }
  }

  lemma RowsShow(s: State, s': State, verdicts: Verdicts)
    requires ShowVerdicts(s, verdicts) && s'.rows == s.rows
    ensures ShowVerdicts(s', verdicts)
  {
  }

  lemma AllShow(s: State, verdicts: Verdicts)
    requires forall r | r in verdicts ::
      && r in s.rows && !s.rows[r].status.Interrupted?
      && (s.rows[r].status.Queued? ==> s.rows[r].queuedReason == Some(verdicts[r]))
    ensures ShowVerdicts(s, verdicts)
  {
  }

  /**
   * Over every execution: a run that was skipped and still waits shows the reason
   * computed in the last scan that judged it, whatever happened in between.
   */
  lemma {:induction false} EveryRunShowsItsLastVerdict(env: Env, s: State, trace: seq<Label>, verdicts: Verdicts)
    requires env.Valid() && AdmissionInv(env, s) && ListedReasons(s) && ShowVerdicts(s, verdicts)
    requires IsRun(env, s, trace) && Always(env, s, trace, ResumesInterrupted)
    ensures ShowVerdicts(After(env, s, trace), LastVerdicts(env, s, trace, verdicts))
    decreases |trace|
  {
    if trace != [] {
      hide AdmissionInv, ListedReasons, ShowVerdicts, Apply, Enabled, Recorded;
      SegmentShows(env, s, trace[0], verdicts);
      SegmentKeepsReasons(env, s, trace[0]);
      SegmentKeepsAdmission(env, s, trace[0]);
      EveryRunShowsItsLastVerdict(env, Apply(env, s, trace[0]), trace[1..], Recorded(env, s, trace[0], verdicts));
    }
  }
}
