/**
 * The queue pass: no wake-up is lost, and the reason a waiting run shows is the
 * one its last judgement computed.
 */
module RunQueue {
  import opened Common
  import opened RunAdmission
  import opened RunLifecycle
  import opened AdmissionSafety

  /**
   * Between passes, and inside a pass that will not scan again, the last listing
   * was taken after every scheduleQueueAdvance.
   */
  ghost predicate NoWakeUpLost(s: State) {
    (s.pass.Idle? || (!s.pass.Listing? && !s.advanceAgain)) ==> s.wakeUpsAtListing == s.wakeUps
  }

  // A run that waits keeps its row or leaves the queue; nobody enters it but an
  // interrupted or a new run.  The judged candidate is left out.
  ghost predicate KeepsWaitingRows(rows: Runs, rows': Runs, judged: set<RunId>) {
    && (forall c | c in rows && rows[c].status.Queued? && c !in judged ::
          c in rows' && (rows'[c].status.Queued? ==> rows'[c] == rows[c]))
    && (forall c | c in rows && c in rows' && rows'[c].status.Queued? ::
          rows[c].status.Queued? || rows[c].status.Interrupted?)
  }

  ghost predicate KeepsWaiting(s: State, s': State, judged: set<RunId>) {
    KeepsWaitingRows(s.rows, s'.rows, judged)
  }

  lemma SettlingLeaves(rows: Runs, r: RunId, status: Status, classification: Option<Classification>)
    requires status in {Completed, Failed, Cancelled}
    ensures KeepsWaitingRows(rows, SettleRow(rows, r, status, classification), {})
  {
  }

  ghost predicate QueueStep(s: State, s': State, judged: set<RunId>) {
    (NoWakeUpLost(s) ==> NoWakeUpLost(s')) && KeepsWaiting(s, s', judged)
  }

  lemma ExitedQueue(s: State, r: RunId, cleanExit: bool, classification: Option<Classification>)
    ensures QueueStep(s, ExitedSegment(s, r, cleanExit, classification), {})
  {
    var s' := ExitedSegment(s, r, cleanExit, classification);
    if r in s.activeAdapters {
      var x := s'.settlements[|s.settlements|];
      SettlingLeaves(s.rows, r, x.status, x.classification);
    }
    assert KeepsWaitingRows(s.rows, s.rows, {});
    hide SettleRow, KeepsWaitingRows;
  }

  lemma CancelQueue(s: State, call: Call, r: RunId)
    ensures QueueStep(s, CancelSegment(s, call, r), {})
  {
    if r in s.rows && s.rows[r].status.Queued? { hide SettleRow; } else { hide CancelQueued; }
  }

  lemma CancelReturnedQueue(s: State, call: Call, ok: bool)
    requires call in s.cancels
    ensures QueueStep(s, CancelReturnedSegment(s, call, ok), {})
  {
    var r := s.cancels[call];
    if ok && !(r in s.rows && s.rows[r].status.Terminal()) { } else { hide Settle; }
  }

  lemma FailStopQueue(s: State, r: RunId, classification: Classification, processManager: bool)
    ensures QueueStep(s, FailStopSegment(s, r, classification, processManager), {})
  {
    if r in s.rows && s.rows[r].status.Queued? { } else { hide SettleFailedStop; }
  }

  lemma FailStopStoppedQueue(s: State, r: RunId, outcome: StopOutcome)
    requires r in s.failStops
    ensures QueueStep(s, FailStopStoppedSegment(s, r, outcome), {})
  {
  }

  lemma FailStopProbedQueue(s: State, r: RunId, alive: bool)
    requires r in s.failStops
    ensures QueueStep(s, FailStopProbedSegment(s, r, alive), {})
  {
  }

  lemma LaunchStartedQueue(s: State, call: Call, ok: bool, classification: Option<Classification>)
    requires call in s.launches
    ensures QueueStep(s, LaunchStartedSegment(s, call, ok, classification), {})
  {
  }

  lemma LaunchIdentifiedQueue(s: State, call: Call)
    requires call in s.launches
    ensures QueueStep(s, LaunchIdentifiedSegment(s, call), {})
  {
    var r := s.launches[call].run;
    if r !in s.rows { } else if s.rows[r].status.Terminal() { hide EndLaunch; } else { hide AbandonLaunch; }
  }

  lemma EnterQueue(s: State, call: Call, r: RunId, spec: Spec, caller: Caller, reason: Option<QueuedReason>)
    requires r in s.rows ==> s.rows[r].status.Interrupted?
    ensures QueueStep(s, Enter(s, call, r, spec, caller, reason), {})
  {
    if reason.Some? { } else { }
  }

  lemma {:induction false} ScanQueue(s: State, listed: Runs, rest: seq<RunId>)
    requires !s.advanceAgain ==> s.wakeUpsAtListing == s.wakeUps
    ensures NoWakeUpLost(NextCandidate(s, listed, rest))
    ensures NextCandidate(s, listed, rest).rows == s.rows
  {
    if rest != [] && rest[0] !in s.pendingRuns {
      ScanQueue(s, listed, rest[1..]);
    }
  }

  lemma ListedQueue(s: State, order: seq<RunId>)
    ensures QueueStep(s, PassListedSegment(s, order), {})
  {
    ScanQueue(s.(wakeUpsAtListing := s.wakeUps), ListActive(s.rows), order);
    hide NextCandidate;
  }

  // What a judgement computes for its candidate; None also when no limit could be read.
  ghost function Verdict(env: Env, s: State, limitRead: bool): Option<QueuedReason>
    requires s.pass.Judging? && s.pass.candidate in s.pass.listed
  {
    if limitRead then SkipReason(env, RunningForLimits(s.pass.listed), s.pass.candidate, s.pass.listed[s.pass.candidate].spec)
    else None
  }

  lemma PromotedQueue(env: Env, s: State, call: Call)
    requires Enabled(s, PassJudged(call, true)) && Verdict(env, s, true).None?
    ensures QueueStep(s, PassJudgedSegment(env, s, call, true), {s.pass.candidate})
  {
    hide SkipReason, NextCandidate;
    if s.pass.candidate in s.rows { } else { hide BeginLaunch; }
  }

  lemma SkippedQueue(s: State, c: RunId, known: Option<QueuedReason>, skip: Option<QueuedReason>, listed: Runs, rest: seq<RunId>)
    requires s.pass.Judging?
    ensures var s1 := if skip.Some? then UpdateQueuedReason(s, c, known, skip.value) else s;
      QueueStep(s, NextCandidate(s1, listed, rest), {c})
  {
    var s1 := if skip.Some? then UpdateQueuedReason(s, c, known, skip.value) else s;
    if NoWakeUpLost(s) { ScanQueue(s1, listed, rest); }
    NextCandidateStays(s1, listed, rest);
    hide NextCandidate;
  }

  lemma JudgedQueue(env: Env, s: State, call: Call, limitRead: bool)
    requires Enabled(s, PassJudged(call, limitRead))
    ensures QueueStep(s, PassJudgedSegment(env, s, call, limitRead), {s.pass.candidate})
  {
    var Judging(listed, c, rest) := s.pass;
    if limitRead && Verdict(env, s, true).None? {
      PromotedQueue(env, s, call);
    } else {
      SkippedQueue(s, c, listed[c].queuedReason, Verdict(env, s, limitRead), listed, rest);
      hide QueueStep, NextCandidate, SkipReason, UpdateQueuedReason;
    }
  }

  lemma ResumeCommitQueue(env: Env, s: State, call: Call, r: RunId)
    requires r in s.rows ==> s.rows[r].status.Interrupted?
    ensures QueueStep(s, ResumeCommit(env, s, call, r), {})
  {
    hide Enter, EntryReason, UnisolatedWriteConflict, WorktreeRunConflict;
    if r in s.rows { EnterQueue(s, call, r, s.rows[r].spec, ByResume, EntryReason(env, s.rows, s.rows[r].spec)); }
  }

  lemma EntryQueue(env: Env, s: State, l: Label)
    requires Enabled(s, l) && ResumesInterrupted(s, l) && (l.Start? || l.Resume? || l.ResumeReturned?)
    ensures QueueStep(s, Apply(env, s, l), {})
  {
    hide Enter, EntryReason, UnisolatedWriteConflict, WorktreeRunConflict, ResumeCommit;
    match l
    case Start(call, r, spec, initialized) =>
      if r !in s.rows { EnterQueue(s, call, r, spec, ByStart, EntryReason(env, s.rows, spec)); }
    case Resume(call, r) =>
      if r in s.rows && s.rows[r].status.Interrupted? { ResumeCommitQueue(env, s, call, r); }
    case ResumeReturned(call, profileOk) =>
      if profileOk { ResumeCommitQueue(env, s.(resumes := s.resumes - {call}), call, s.resumes[call]); }
  }

  lemma AdapterlessQueue(s: State, r: RunId)
    ensures QueueStep(s, AdapterlessSegment(s, r), {})
  {
  }

  lemma LaunchStoppedQueue(s: State, call: Call)
    requires call in s.launches
    ensures QueueStep(s, EndLaunch(s, call, true), {})
  {
  }

  // Which candidate a label judges.
  ghost function Judged(s: State, l: Label): set<RunId> {
    if l.PassJudged? && s.pass.Judging? then {s.pass.candidate} else {}
  }

  /**
   * No wake-up is lost and only its own judgement rewrites a waiting run, in
   * every segment but a failed listing.
   */
  lemma SegmentKeepsQueue(env: Env, s: State, l: Label)
    requires Enabled(s, l) && ResumesInterrupted(s, l) && !l.PassListFailed?
    ensures QueueStep(s, Apply(env, s, l), Judged(s, l))
  {
    hide QueueStep;
    match l
    case LaunchStarted(call, ok, classification) => LaunchStartedQueue(s, call, ok, classification);
    case LaunchIdentified(call) => LaunchIdentifiedQueue(s, call);
    case LaunchStopped(call) => LaunchStoppedQueue(s, call);
    case Exited(r, cleanExit, classification) => ExitedQueue(s, r, cleanExit, classification);
    case Cancel(call, r) => CancelQueue(s, call, r);
    case CancelReturned(call, ok) => CancelReturnedQueue(s, call, ok);
    case AdapterlessReturned(r) => AdapterlessQueue(s, r);
    case FailAndStop(r, intent, processManager) => FailStopQueue(s, r, intent, processManager);
    case FailStopStopped(r, outcome) => FailStopStoppedQueue(s, r, outcome);
    case FailStopProbed(r, alive) => FailStopProbedQueue(s, r, alive);
    case PassListed(order) => ListedQueue(s, order);
    case PassJudged(call, limitRead) => JudgedQueue(env, s, call, limitRead);
    case _ => EntryQueue(env, s, l);
  }

  /** A listing that fails ends the pass and loses exactly the wake-ups since the last one that succeeded. */
  lemma FailedListingLosesWakeUps(env: Env, s: State)
    requires s.pass.Listing?
    ensures NoWakeUpLost(Apply(env, s, PassListFailed)) <==> s.wakeUpsAtListing == s.wakeUps
  {
  }

  lemma EnterKeepsWakeUps(s: State, call: Call, r: RunId, spec: Spec, caller: Caller, reason: Option<QueuedReason>)
    requires NoWakeUpLost(s)
    ensures NoWakeUpLost(Enter(s, call, r, spec, caller, reason))
  {
    if reason.Some? { } else { }
  }

  lemma ResumeCommitKeepsWakeUps(env: Env, s: State, call: Call, r: RunId)
    requires NoWakeUpLost(s)
    ensures NoWakeUpLost(ResumeCommit(env, s, call, r))
  {
    hide Enter, EntryReason, UnisolatedWriteConflict, WorktreeRunConflict, NoWakeUpLost;
    if r in s.rows { EnterKeepsWakeUps(s, call, r, s.rows[r].spec, ByResume, EntryReason(env, s.rows, s.rows[r].spec)); }
  }

  lemma SegmentKeepsWakeUps(env: Env, s: State, l: Label)
    requires Enabled(s, l) && !l.PassListFailed? && NoWakeUpLost(s)
    ensures NoWakeUpLost(Apply(env, s, l))
  {
    if l.ResumeReturned? {
      hide ResumeCommit;
      if l.profileOk { ResumeCommitKeepsWakeUps(env, s.(resumes := s.resumes - {l.call}), l.call, s.resumes[l.call]); }
    } else {
      assert ResumesInterrupted(s, l);
      hide Apply, Enabled, NoWakeUpLost, KeepsWaiting;
      SegmentKeepsQueue(env, s, l);
    }
  }

  ghost predicate ListingsSucceed(s: State, l: Label) { !l.PassListFailed? }

  /** Over whole runs with readable listings, no wake-up is ever lost. */
  lemma {:induction false} NoRunLosesAWakeUp(env: Env, s: State, trace: seq<Label>)
    requires NoWakeUpLost(s) && IsRun(env, s, trace) && Always(env, s, trace, ListingsSucceed)
    ensures NoWakeUpLost(After(env, s, trace))
    decreases |trace|
  {
    if trace != [] {
      hide NoWakeUpLost, Apply, Enabled;
      SegmentKeepsWakeUps(env, s, trace[0]);
      NoRunLosesAWakeUp(env, Apply(env, s, trace[0]), trace[1..]);
    }
  }

  // ---- reasons ----

  /** Candidates still to be judged show the reason they had when they were listed. */
  ghost predicate ListedReasons(s: State) {
    s.pass.Judging? ==>
      && NoDuplicates([s.pass.candidate] + s.pass.rest)
      && (forall c | c in [s.pass.candidate] + s.pass.rest && StillWaiting(s.rows, s.pass.listed, c) ::
            s.rows[c].queuedReason == s.pass.listed[c].queuedReason)
  }

  /** After its judgement a candidate that still waits shows the reason just computed. */
  lemma JudgementStoresItsReason(env: Env, s: State, call: Call, limitRead: bool)
    requires Enabled(s, PassJudged(call, limitRead)) && ListedReasons(s)
    requires StillWaiting(s.rows, s.pass.listed, s.pass.candidate) && Verdict(env, s, limitRead).Some?
    ensures var s' := PassJudgedSegment(env, s, call, limitRead);
      var c := s.pass.candidate;
      c in s'.rows && s'.rows[c].status.Queued? && s'.rows[c].queuedReason == Verdict(env, s, limitRead)
  {
    var Judging(listed, c, rest) := s.pass;
    assert c in [c] + rest;
    var skip := SkipReason(env, RunningForLimits(listed), c, listed[c].spec);
    NextCandidateStays(UpdateQueuedReason(s, c, listed[c].queuedReason, skip.value), listed, rest);
    hide NextCandidate, SkipReason;
  }

  lemma SuffixHasNoDuplicates(a: seq<RunId>, b: seq<RunId>)
    requires Suffix(a, b) && NoDuplicates(b)
    ensures NoDuplicates(a)
  {
    forall i, j | 0 <= i < j < |a| ensures a[i] != a[j] {
      assert a[i] == b[|b| - |a| + i] && a[j] == b[|b| - |a| + j];
    }
  }

  lemma ListingRecordsReasons(env: Env, s: State, order: seq<RunId>)
    requires Enabled(s, PassListed(order))
    ensures ListedReasons(PassListedSegment(s, order))
  {
    var s1 := s.(wakeUpsAtListing := s.wakeUps);
    var s' := PassListedSegment(s, order);
    NextCandidateStays(s1, ListActive(s.rows), order);
    if s'.pass.Judging? { SuffixHasNoDuplicates([s'.pass.candidate] + s'.pass.rest, order); }
    hide NextCandidate;
  }

  lemma OthersKeepReasons(s: State, s': State, judged: set<RunId>)
    requires ListedReasons(s) && PassInv(s) && KeepsWaiting(s, s', judged) && SamePass(s, s')
    requires s'.pass.Judging? ==> forall c | c in judged :: c !in [s'.pass.candidate] + s'.pass.rest
    ensures ListedReasons(s')
  {
    if s'.pass.Judging? {
      var all, all' := [s.pass.candidate] + s.pass.rest, [s'.pass.candidate] + s'.pass.rest;
      SuffixHasNoDuplicates(all', all);
      forall c | c in all' && StillWaiting(s'.rows, s'.pass.listed, c)
        ensures s'.rows[c].queuedReason == s'.pass.listed[c].queuedReason
      {
        assert c in all;
        assert c in s.rows && s.rows[c].status.Queued?;
        assert StillWaiting(s.rows, s.pass.listed, c);
      }
    }
  }

  lemma JudgingKeepsReasons(env: Env, s: State, call: Call, limitRead: bool)
    requires ListedReasons(s) && PassInv(s) && Enabled(s, PassJudged(call, limitRead))
    ensures ListedReasons(PassJudgedSegment(env, s, call, limitRead))
  {
    var Judging(listed, c, rest) := s.pass;
    var s' := PassJudgedSegment(env, s, call, limitRead);
    JudgedQueue(env, s, call, limitRead);
    if limitRead && Verdict(env, s, true).None? {
      hide SkipReason, NextCandidate, KeepsWaiting, QueueStep;
    } else {
      var skip := Verdict(env, s, limitRead);
      var s1 := if skip.Some? then UpdateQueuedReason(s, c, listed[c].queuedReason, skip.value) else s;
      NextCandidateStays(s1, listed, rest);
      SkippingMoves(s, skip);
      TailHasNoDuplicates(c, rest);
      hide SkipReason, NextCandidate, UpdateQueuedReason, PassInv, KeepsWaiting, ListedReasons, Quiet;
      OthersKeepReasons(s, s', {c});
    }
  }

  lemma TailHasNoDuplicates(c: RunId, rest: seq<RunId>)
    requires NoDuplicates([c] + rest)
    ensures c !in rest
  {
    var all := [c] + rest;
    forall i | 0 <= i < |rest| ensures rest[i] != c {
      assert all[0] == c && all[i + 1] == rest[i];
    }
  }

  // Every segment but a listing leaves the scan where it is or moves it on.
  lemma SegmentSamePass(env: Env, s: State, l: Label)
    requires Enabled(s, l) && LaunchInv(s) && ResumesInterrupted(s, l) && !l.PassListed? && !l.PassJudged?
    ensures SamePass(s, Apply(env, s, l))
  {
    if l.Start? || l.Resume? || l.ResumeReturned? {
      EntrySamePass(env, s, l);
    } else {
      OtherSegmentMoves(env, s, l);
    }
  }

  lemma EnterSamePass(s: State, call: Call, r: RunId, spec: Spec, caller: Caller, reason: Option<QueuedReason>)
    ensures SamePass(s, Enter(s, call, r, spec, caller, reason))
  {
    if reason.Some? { } else { }
  }

  lemma EntrySamePass(env: Env, s: State, l: Label)
    requires Enabled(s, l) && (l.Start? || l.Resume? || l.ResumeReturned?)
    ensures SamePass(s, Apply(env, s, l))
  {
    hide Enter, EntryReason, UnisolatedWriteConflict, WorktreeRunConflict;
    match l
    case Start(call, r, spec, initialized) => EnterSamePass(s, call, r, spec, ByStart, EntryReason(env, s.rows, spec));
    case Resume(call, r) =>
      if r in s.rows { EnterSamePass(s, call, r, s.rows[r].spec, ByResume, EntryReason(env, s.rows, s.rows[r].spec)); }
    case ResumeReturned(call, profileOk) =>
      var r := s.resumes[call];
      var s1 := s.(resumes := s.resumes - {call});
      if r in s.rows { EnterSamePass(s1, call, r, s.rows[r].spec, ByResume, EntryReason(env, s.rows, s.rows[r].spec)); }
  }

  /** The listed reasons stay true of the candidates to come, so every judgement stores what it computes. */
  lemma SegmentKeepsReasons(env: Env, s: State, l: Label)
    requires env.Valid() && AdmissionInv(env, s) && ListedReasons(s)
    requires Enabled(s, l) && ResumesInterrupted(s, l)
    ensures ListedReasons(Apply(env, s, l))
  {
    assert LaunchInv(s) && PassInv(s);
    hide AdmissionInv, ListedReasons;
    match l
    case PassListed(order) => ListingRecordsReasons(env, s, order);
    case PassJudged(call, limitRead) => JudgingKeepsReasons(env, s, call, limitRead);
    case PassListFailed => FailedListingHasNoScan(env, s);
    case _ =>
      SegmentKeepsQueue(env, s, l);
      SegmentSamePass(env, s, l);
      hide Apply, Enabled, LaunchInv, PassInv, KeepsWaiting, SamePass;
      OthersKeepReasons(s, Apply(env, s, l), {});
  }

  lemma FailedListingHasNoScan(env: Env, s: State)
    requires s.pass.Listing?
    ensures ListedReasons(Apply(env, s, PassListFailed))
  {
  }

  /** Over whole runs: whenever a candidate is judged, its row shows the reason it was listed with. */
  lemma {:induction false} EveryRunKeepsReasons(env: Env, s: State, trace: seq<Label>)
    requires env.Valid() && AdmissionInv(env, s) && ListedReasons(s)
    requires IsRun(env, s, trace) && Always(env, s, trace, ResumesInterrupted)
    ensures ListedReasons(After(env, s, trace))
    decreases |trace|
  {
    if trace != [] {
      hide AdmissionInv, ListedReasons, Apply, Enabled;
      SegmentKeepsReasons(env, s, trace[0]);
      SegmentKeepsAdmission(env, s, trace[0]);
      EveryRunKeepsReasons(env, Apply(env, s, trace[0]), trace[1..]);
    }
  }
}
