/**
 * Settlement of the run lifecycle: who may write a terminal row, how often, and
 * what a registered fail-and-stop intent guarantees.
 */
module RunSettlement {
  import opened Common
  import opened RunAdmission
  import opened RunLifecycle
  import opened AdmissionSafety

  /** Rows a launch, a binding, a cancel or a fail-and-stop refers to are neither waiting nor resumable. */
  ghost predicate BindingInv(s: State) {
    && LaunchInv(s)
    && (forall r | r in s.activeAdapters :: Launched(s, r))
    && (forall r | r in s.adapterlessCancels :: Launched(s, r))
    && (forall c | c in s.cancels :: Launched(s, s.cancels[c]))
    && (forall r | r in s.failStops :: Launched(s, r))
  }

  /** Suspended resumes hold pairwise different rows, each still interrupted. */
  ghost predicate TicketInv(s: State) {
    && (forall c | c in s.resumes :: s.resumes[c] in s.rows && s.rows[s.resumes[c]].status.Interrupted?)
    && (forall c, d | c in s.resumes && d in s.resumes && c != d :: s.resumes[c] != s.resumes[d])
  }

  /**
   * A run that holds a slot has its adapter, unless it survived from an earlier
   * process; only survivors are ever cancelled without one.
   */
  ghost predicate SlotInv(s: State, survivors: set<RunId>) {
    && (forall r | r in s.rows && s.rows[r].status.Live() :: r in s.activeAdapters || r in survivors)
    && s.adapterlessCancels <= survivors
  }

  ghost predicate CoreInv(s: State, survivors: set<RunId>) {
    BindingInv(s) && TicketInv(s) && SlotInv(s, survivors)
  }

  // Callers never resume a run whose resume is still in flight.
  ghost predicate NoOverlappingResume(s: State, l: Label) {
    l.Resume? ==> forall c | c in s.resumes :: s.resumes[c] != l.run
  }

  // Terminal by a settlement; interrupted rows are the resumable exception.
  ghost predicate SettledRow(s: State, r: RunId) {
    r in s.rows && s.rows[r].status in {Completed, Failed, Cancelled}
  }

  // A settled row keeps its outcome.
  ghost predicate SettledKept(s: State, s': State) {
    forall r | SettledRow(s, r) ::
      && r in s'.rows
      && s'.rows[r].status == s.rows[r].status
      && s'.rows[r].classification == s.rows[r].classification
  }

  // Either nothing is written and no run becomes settled, or one terminal event
  // is, and its run is the one that becomes settled.
  ghost predicate LogStep(s: State, s': State) {
    || (s'.settlements == s.settlements && NoneSettled(s, s'))
    || exists x :: s'.settlements == s.settlements + [x] && FirstSettlement(s, s', x)
  }

  ghost predicate NoneSettled(s: State, s': State) {
    forall r | SettledRow(s', r) :: SettledRow(s, r)
  }

  // The row has the outcome the event names.
  ghost predicate Outcome(s: State, x: Settlement) {
    && SettledRow(s, x.run) && s.rows[x.run].status == x.status
    && (x.classification.Some? ==> s.rows[x.run].classification == x.classification)
  }

  ghost predicate FirstSettlement(s: State, s': State, x: Settlement) {
    && !SettledRow(s, x.run) && Outcome(s', x)
    && (forall r | SettledRow(s', r) && r != x.run :: SettledRow(s, r))
  }

  /** The run becomes settled with that status, its terminal event is written, and no other run is settled. */
  ghost predicate Settles(s: State, s': State, r: RunId, status: Status) {
    exists x :: s'.settlements == s.settlements + [x] && x.run == r && x.status == status && FirstSettlement(s, s', x)
  }

  ghost predicate SettlesOnce(s: State, s': State) {
    SettledKept(s, s') && LogStep(s, s')
  }

  // ---- segment by segment ----

  // Rows keep their status, or move among the two live ones.
  ghost predicate KeepsOutcomes(rows: Runs, rows': Runs) {
    && rows'.Keys == rows.Keys
    && (forall r | r in rows ::
          && rows'[r].classification == rows[r].classification
          && (rows'[r].status == rows[r].status || (rows'[r].status.Live() && rows[r].status.Live())))
  }

  // Nothing is settled, and what is referred to was already, or is launched.
  ghost predicate Bookkeeping(s: State, s': State) {
    && KeepsOutcomes(s.rows, s'.rows) && s'.settlements == s.settlements
    && (forall r | r in s.activeAdapters && r !in s'.activeAdapters :: SettledRow(s, r))
    && s'.activeAdapters <= s.activeAdapters
    && s'.adapterlessCancels == s.adapterlessCancels
    && (forall c | c in s'.launches :: c in s.launches && s'.launches[c].run == s.launches[c].run)
    && (forall c | c in s'.cancels :: (c in s.cancels && s'.cancels[c] == s.cancels[c]) || s'.cancels[c] in s.activeAdapters)
    && (forall r | r in s'.failStops :: r in s.failStops || (r in s.rows && s.rows[r].status.Live()))
    && s'.resumes == s.resumes
  }

  lemma BookkeepingKeeps(s: State, s': State, survivors: set<RunId>)
    requires CoreInv(s, survivors) && Bookkeeping(s, s')
    ensures CoreInv(s', survivors) && SettlesOnce(s, s')
  {
    forall r | r in s.failStops || (r in s.rows && s.rows[r].status.Live()) ensures Launched(s, r) { }
  }

  // An intent to fail wins over a cancel request, which wins over the exit code.
  ghost function ExitStatus(s: State, r: RunId, cleanExit: bool): Status {
    if r in s.failStopIntents then Failed
    else if r in s.cancelRequested then Cancelled
    else if cleanExit then Completed else Failed
  }

  lemma ExitedSettles(s: State, survivors: set<RunId>, r: RunId, cleanExit: bool, classification: Option<Classification>)
    requires CoreInv(s, survivors)
    ensures var s' := ExitedSegment(s, r, cleanExit, classification);
      && CoreInv(s', survivors)
      && ((r in s.activeAdapters && SettledRow(s, r)) || SettlesOnce(s, s'))
      && (r in s.activeAdapters && !SettledRow(s, r) ==> Settles(s, s', r, ExitStatus(s, r, cleanExit)))
      && (r !in s.activeAdapters ==> s' == s)
  {
    var s' := ExitedSegment(s, r, cleanExit, classification);
    if r in s.activeAdapters && !SettledRow(s, r) {
      var x := s'.settlements[|s.settlements|];
      assert s'.settlements == s.settlements + [x] && FirstSettlement(s, s', x);
    }
  }

  lemma CancelQueuedSettles(s: State, survivors: set<RunId>, r: RunId)
    requires CoreInv(s, survivors) && r in s.rows && s.rows[r].status.Queued?
    ensures var s' := CancelQueued(s, r);
      && CoreInv(s', survivors) && SettlesOnce(s, s')
      && Settles(s, s', r, Cancelled)
      && r !in s'.pendingRuns && s'.rows[r].queuedReason.None?
  {
    var s' := CancelQueued(s, r);
    assert !Launched(s, r);
    var x := s'.settlements[|s.settlements|];
    assert s'.settlements == s.settlements + [x] && FirstSettlement(s, s', x);
  }

  lemma CancelBooks(s: State, call: Call, r: RunId)
    requires r in s.rows && !s.rows[r].status.Terminal() ==> !s.rows[r].status.Queued? && r in s.activeAdapters
    ensures Bookkeeping(s, CancelSegment(s, call, r))
  {
  }

  lemma CancelSettles(s: State, survivors: set<RunId>, call: Call, r: RunId)
    requires CoreInv(s, survivors) && call !in s.cancels
    ensures var s' := CancelSegment(s, call, r);
      CoreInv(s', survivors) && SettlesOnce(s, s')
  {
    if r in s.rows && s.rows[r].status.Queued? {
      CancelQueuedSettles(s, survivors, r);
      hide CancelQueued, CoreInv, SettlesOnce;
    } else if r in s.rows && !s.rows[r].status.Terminal() && r !in s.activeAdapters {
      hide CancelQueued;
    } else {
      CancelBooks(s, call, r);
      hide *;
      BookkeepingKeeps(s, CancelSegment(s, call, r), survivors);
    }
  }

  // cancel writes the row itself when no exit event has (2538-2547).
  lemma CancelFallbackSettles(s: State, survivors: set<RunId>, call: Call)
    requires CoreInv(s, survivors) && call in s.cancels
    requires Launched(s, s.cancels[call]) && !SettledRow(s, s.cancels[call])
    ensures var s' := CancelReturnedSegment(s, call, true);
      CoreInv(s', survivors) && SettlesOnce(s, s') && Settles(s, s', s.cancels[call], Cancelled)
  {
    var s' := CancelReturnedSegment(s, call, true);
    var x := s'.settlements[|s.settlements|];
    assert s'.settlements == s.settlements + [x] && FirstSettlement(s, s', x);
  }

  lemma CancelReturnedSettles(s: State, survivors: set<RunId>, call: Call, ok: bool)
    requires CoreInv(s, survivors) && call in s.cancels
    ensures var s' := CancelReturnedSegment(s, call, ok);
      && CoreInv(s', survivors) && SettlesOnce(s, s')
      && (ok ==> SettledRow(s', s.cancels[call]))
      && (ok && !SettledRow(s, s.cancels[call]) ==> Settles(s, s', s.cancels[call], Cancelled))
      && (!ok || SettledRow(s, s.cancels[call]) ==> s'.settlements == s.settlements)
  {
    var r := s.cancels[call];
    assert Launched(s, r);
    if ok && !SettledRow(s, r) {
      CancelFallbackSettles(s, survivors, call);
      hide *;
    } else {
      CancelReturnedBooks(s, call, ok);
      hide *;
      BookkeepingKeeps(s, CancelReturnedSegment(s, call, ok), survivors);
    }
  }

  lemma CancelReturnedBooks(s: State, call: Call, ok: bool)
    requires call in s.cancels && Launched(s, s.cancels[call]) && (ok ==> SettledRow(s, s.cancels[call]))
    ensures Bookkeeping(s, CancelReturnedSegment(s, call, ok))
    ensures ok ==> SettledRow(CancelReturnedSegment(s, call, ok), s.cancels[call])
  {
    hide Settle;
  }

  lemma AdapterlessSettles(s: State, survivors: set<RunId>, r: RunId)
    requires CoreInv(s, survivors) && r in s.adapterlessCancels
    ensures var s' := AdapterlessSegment(s, r);
      && CoreInv(s', survivors)
      && (SettledRow(s, r) || (SettlesOnce(s, s') && Settles(s, s', r, Cancelled)))
  {
    var s' := AdapterlessSegment(s, r);
    assert Launched(s, r);
    if !SettledRow(s, r) {
      var x := s'.settlements[|s.settlements|];
      assert s'.settlements == s.settlements + [x] && FirstSettlement(s, s', x);
    }
  }

  // Shared by the three fail-and-stop segments that settle.
  lemma FailedStopSettles(s: State, survivors: set<RunId>, r: RunId, classification: Classification)
    requires CoreInv(s, survivors) && r in s.rows && !s.rows[r].status.Terminal()
    ensures var s' := SettleFailedStop(s, r, classification);
      && CoreInv(s', survivors) && SettlesOnce(s, s')
      && Settles(s, s', r, Failed) && s'.rows[r].classification == Some(classification)
  {
    var s' := SettleFailedStop(s, r, classification);
    var x := s'.settlements[|s.settlements|];
    assert s'.settlements == s.settlements + [x] && FirstSettlement(s, s', x);
  }

  // A fail-and-stop of a waiting run, the one kind that settles before its await.
  ghost predicate StopsQueued(s: State, r: RunId) {
    r !in s.failStops && r in s.rows && s.rows[r].status.Queued?
  }

  lemma FailStopBooks(s: State, r: RunId, classification: Classification, processManager: bool)
    requires !StopsQueued(s, r)
    ensures Bookkeeping(s, FailStopSegment(s, r, classification, processManager))
  {
    hide SettleFailedStop;
    if FailStopSegment(s, r, classification, processManager) == s { } else { assert s.rows[r].status.Live(); }
  }

  lemma FailStopSettles(s: State, survivors: set<RunId>, r: RunId, classification: Classification, processManager: bool)
    requires CoreInv(s, survivors)
    ensures var s' := FailStopSegment(s, r, classification, processManager);
      && CoreInv(s', survivors) && SettlesOnce(s, s')
      && (if StopsQueued(s, r) then Settles(s, s', r, Failed) && r !in s'.pendingRuns
          else s'.settlements == s.settlements && s'.rows == s.rows)
  {
    var s1 := s.(pendingRuns := s.pendingRuns - {r});
    var s' := FailStopSegment(s, r, classification, processManager);
    if StopsQueued(s, r) {
      assert Bookkeeping(s, s1);
      assert r !in s'.pendingRuns;
      hide Bookkeeping, CoreInv, SettlesOnce, SettleFailedStop, Settles;
      BookkeepingKeeps(s, s1, survivors);
      FailedStopSettles(s1, survivors, r, classification);
      SettlesSame(s, s1, s');
    } else {
      FailStopBooks(s, r, classification, processManager);
      assert s'.settlements == s.settlements && s'.rows == s.rows by { hide SettleFailedStop; }
      hide *;
      BookkeepingKeeps(s, s', survivors);
    }
  }

  // SettlesOnce only looks at the rows and the log of its first state.
  lemma SettlesSame(s: State, s1: State, s': State)
    requires s.rows == s1.rows && s.settlements == s1.settlements && SettlesOnce(s1, s')
    ensures SettlesOnce(s, s')
    ensures forall r, status | Settles(s1, s', r, status) :: Settles(s, s', r, status)
  {
    if s'.settlements != s.settlements {
      var x :| s'.settlements == s1.settlements + [x] && FirstSettlement(s1, s', x);
      assert FirstSettlement(s, s', x);
    }
    forall r, status | Settles(s1, s', r, status) ensures Settles(s, s', r, status) {
      var x :| s'.settlements == s1.settlements + [x] && x.run == r && x.status == status && FirstSettlement(s1, s', x);
      assert FirstSettlement(s, s', x);
    }
  }

  lemma FailStopStoppedSettles(s: State, survivors: set<RunId>, r: RunId, outcome: StopOutcome)
    requires CoreInv(s, survivors) && r in s.failStops
    ensures var s' := FailStopStoppedSegment(s, r, outcome);
      && CoreInv(s', survivors) && SettlesOnce(s, s')
      && (outcome.Stopped? ==> SettledRow(s', r))
      && (if outcome.Stopped? && !SettledRow(s, r) then Settles(s, s', r, Failed) else s'.settlements == s.settlements)
  {
    assert Launched(s, r);
    var s1 := s.(failStops := s.failStops - {r});
    var c := s.failStops[r].classification;
    hide SettleFailedStop, SettlesOnce, CoreInv, Settles;
    BookkeepingKeeps(s, s1, survivors);
    if outcome.Stopped? && !s.rows[r].status.Terminal() {
      FailedStopSettles(s1, survivors, r, c);
      SettlesSame(s, s1, SettleFailedStop(s1, r, c));
    } else {
      StopAnswerBooks(s, r, outcome);
      hide *;
      BookkeepingKeeps(s, FailStopStoppedSegment(s, r, outcome), survivors);
    }
  }

  lemma StopAnswerBooks(s: State, r: RunId, outcome: StopOutcome)
    requires r in s.failStops && Launched(s, r)
    requires outcome.Stopped? ==> s.rows[r].status.Terminal()
    ensures Bookkeeping(s, FailStopStoppedSegment(s, r, outcome))
    ensures FailStopStoppedSegment(s, r, outcome).settlements == s.settlements
    ensures outcome.Stopped? ==> SettledRow(FailStopStoppedSegment(s, r, outcome), r)
  {
    hide SettleFailedStop;
  }

  lemma FailStopProbedSettles(s: State, survivors: set<RunId>, r: RunId, alive: bool)
    requires CoreInv(s, survivors) && r in s.failStops
    ensures var s' := FailStopProbedSegment(s, r, alive);
      && CoreInv(s', survivors) && SettlesOnce(s, s')
      && (!alive ==> SettledRow(s', r))
      && (if !alive && !SettledRow(s, r) then Settles(s, s', r, Failed) else s'.settlements == s.settlements)
  {
    assert Launched(s, r);
    var s1 := s.(failStops := s.failStops - {r});
    var c := s.failStops[r].classification;
    hide SettleFailedStop, SettlesOnce, CoreInv, Settles;
    BookkeepingKeeps(s, s1, survivors);
    if !alive && !s.rows[r].status.Terminal() {
      FailedStopSettles(s1, survivors, r, c);
      SettlesSame(s, s1, SettleFailedStop(s1, r, c));
    } else {
      BookkeepingKeeps(s, FailStopProbedSegment(s, r, alive), survivors);
    }
  }

  lemma FinishFailedSettles(s: State, survivors: set<RunId>, call: Call, classification: Option<Classification>)
    requires CoreInv(s, survivors) && call in s.launches
    ensures var r := s.launches[call].run;
      var s' := EndLaunch(FinishFailed(s, r, classification), call, r in s.rows);
      && CoreInv(s', survivors)
      && (SettledRow(s, r) || (SettlesOnce(s, s') && Settles(s, s', r, Failed)))
      && SettledRow(s', r)
  {
    var r := s.launches[call].run;
    assert Launched(s, r);
    var s' := EndLaunch(FinishFailed(s, r, classification), call, r in s.rows);
    if !SettledRow(s, r) {
      var x := s'.settlements[|s.settlements|];
      assert s'.settlements == s.settlements + [x] && FirstSettlement(s, s', x);
    }
  }

  lemma LaunchStartedBooks(s: State, call: Call, classification: Option<Classification>)
    requires call in s.launches && Launched(s, s.launches[call].run)
    ensures Bookkeeping(s, LaunchStartedSegment(s, call, true, classification))
  {
    hide FinishFailed, EndLaunch;
  }

  lemma LaunchIdentifiedBooks(s: State, call: Call)
    requires call in s.launches && Launched(s, s.launches[call].run)
    ensures Bookkeeping(s, LaunchIdentifiedSegment(s, call))
  {
    if s.rows[s.launches[call].run].status.Terminal() { hide EndLaunch; } else { }
  }

  lemma LaunchStartedSettles(s: State, survivors: set<RunId>, call: Call, ok: bool, classification: Option<Classification>)
    requires CoreInv(s, survivors) && call in s.launches
    ensures var s' := LaunchStartedSegment(s, call, ok, classification);
      && CoreInv(s', survivors)
      && ((!ok && SettledRow(s, s.launches[call].run)) || SettlesOnce(s, s'))
  {
    assert Launched(s, s.launches[call].run);
    if !ok {
      FinishFailedSettles(s, survivors, call, classification);
      hide CoreInv, SettlesOnce, FinishFailed, EndLaunch;
    } else {
      LaunchStartedBooks(s, call, classification);
      hide *;
      BookkeepingKeeps(s, LaunchStartedSegment(s, call, ok, classification), survivors);
    }
  }

  lemma LaunchIdentifiedSettles(s: State, survivors: set<RunId>, call: Call)
    requires CoreInv(s, survivors) && call in s.launches
    ensures var s' := LaunchIdentifiedSegment(s, call);
      CoreInv(s', survivors) && SettlesOnce(s, s')
  {
    assert Launched(s, s.launches[call].run);
    LaunchIdentifiedBooks(s, call);
    hide *;
    BookkeepingKeeps(s, LaunchIdentifiedSegment(s, call), survivors);
  }

  lemma LaunchStoppedSettles(s: State, survivors: set<RunId>, call: Call)
    requires CoreInv(s, survivors) && call in s.launches
    ensures var s' := EndLaunch(s, call, true);
      CoreInv(s', survivors) && SettlesOnce(s, s')
  {
  }

  lemma EnterQueueCore(s: State, survivors: set<RunId>, r: RunId, spec: Spec, reason: Option<QueuedReason>)
    requires CoreInv(s, survivors) && !Launched(s, r)
    requires r in s.rows ==> s.rows[r].status.Interrupted?
    requires forall c | c in s.resumes :: s.resumes[c] != r
    ensures var s' := Wake(s.(rows := s.rows[r := Run(spec, Queued, reason, false, None)], pendingRuns := s.pendingRuns + {r}));
      CoreInv(s', survivors) && SettlesOnce(s, s')
  {
  }

  lemma LaunchCore(s: State, survivors: set<RunId>, r: RunId, run: Run, call: Call, caller: Caller)
    requires CoreInv(s, survivors) && call !in s.launches && run.status.Preparing?
    requires r in s.rows ==> s.rows[r].status.Interrupted?
    requires forall c | c in s.resumes :: s.resumes[c] != r
    ensures var s' := BeginLaunch(s.(rows := s.rows[r := run]), r, call, caller);
      CoreInv(s', survivors) && SettlesOnce(s, s')
  {
  }

  lemma EnterSettles(s: State, survivors: set<RunId>, call: Call, r: RunId, spec: Spec, caller: Caller, reason: Option<QueuedReason>)
    requires CoreInv(s, survivors) && call !in s.launches
    requires r in s.rows ==> s.rows[r].status.Interrupted?
    requires forall c | c in s.resumes :: s.resumes[c] != r
    ensures var s' := Enter(s, call, r, spec, caller, reason);
      CoreInv(s', survivors) && SettlesOnce(s, s')
  {
    assert !Launched(s, r);
    if reason.Some? {
      EnterQueueCore(s, survivors, r, spec, reason);
    } else {
      LaunchCore(s, survivors, r, Run(spec, Preparing, None, false, None), call, caller);
    }
  }

  lemma PromotionSettles(s: State, survivors: set<RunId>, c: RunId, call: Call)
    requires CoreInv(s, survivors) && call !in s.launches && c in s.rows && !s.rows[c].status.Interrupted?
    ensures var s' := BeginLaunch(s.(pendingRuns := s.pendingRuns - {c}), c, call, ByQueue).(pass := Promoting(call));
      CoreInv(s', survivors) && SettlesOnce(s, s')
  {
  }

  lemma ReasonCore(s: State, survivors: set<RunId>, c: RunId, known: Option<QueuedReason>, reason: QueuedReason)
    requires CoreInv(s, survivors)
    ensures var s' := UpdateQueuedReason(s, c, known, reason);
      CoreInv(s', survivors) && SettlesOnce(s, s') && s'.settlements == s.settlements
  {
    assert Bookkeeping(s, UpdateQueuedReason(s, c, known, reason));
    hide Bookkeeping, CoreInv, SettlesOnce;
    BookkeepingKeeps(s, UpdateQueuedReason(s, c, known, reason), survivors);
  }

  lemma SettlesThen(s: State, s1: State, s': State)
    requires SettlesOnce(s, s1) && s1.settlements == s.settlements && SettlesOnce(s1, s') && s'.settlements == s1.settlements
    ensures SettlesOnce(s, s')
  {
  }

  lemma SkipSettles(s: State, survivors: set<RunId>, listed: Runs, c: RunId, known: Option<QueuedReason>, skip: Option<QueuedReason>, rest: seq<RunId>)
    requires CoreInv(s, survivors)
    ensures var s1 := if skip.Some? then UpdateQueuedReason(s, c, known, skip.value) else s;
      var s' := NextCandidate(s1, listed, rest);
      CoreInv(s', survivors) && SettlesOnce(s, s')
  {
    var s1 := if skip.Some? then UpdateQueuedReason(s, c, known, skip.value) else s;
    NextCandidateStays(s1, listed, rest);
    if skip.Some? { ReasonCore(s, survivors, c, known, skip.value); }
    hide NextCandidate, UpdateQueuedReason, CoreInv, SettlesOnce;
    var s' := NextCandidate(s1, listed, rest);
    BookkeepingKeeps(s1, s', survivors);
    SettlesThen(s, s1, s');
  }

  // ---- every segment ----

  /**
   * The three segments that can write a terminal row over a settled one: a
   * failed adapter.start (finishFailed), the return of an adapterless cancel,
   * and an exit delivered to a run whose binding outlived its row.
   */
  ghost predicate OverwritesSettled(s: State, l: Label) {
    match l
    case LaunchStarted(call, ok, _) => !ok && call in s.launches && SettledRow(s, s.launches[call].run)
    case AdapterlessReturned(r) => SettledRow(s, r)
    case Exited(r, _, _) => r in s.activeAdapters && SettledRow(s, r)
    case _ => false
  }

  ghost predicate Inv(env: Env, s: State, survivors: set<RunId>) {
    AdmissionInv(env, s) && CoreInv(s, survivors)
  }

  lemma ResumeCommitSettles(env: Env, s: State, survivors: set<RunId>, call: Call, r: RunId)
    requires CoreInv(s, survivors) && call !in s.launches
    requires r in s.rows ==> s.rows[r].status.Interrupted?
    requires forall c | c in s.resumes :: s.resumes[c] != r
    ensures var s' := ResumeCommit(env, s, call, r);
      CoreInv(s', survivors) && SettlesOnce(s, s')
  {
    hide Enter, UnisolatedWriteConflict, WorktreeRunConflict, EntryReason, CoreInv, SettlesOnce;
    BookkeepingKeeps(s, s, survivors);
    if r in s.rows {
      EnterSettles(s, survivors, call, r, s.rows[r].spec, ByResume, EntryReason(env, s.rows, s.rows[r].spec));
    }
  }

  lemma StartSettles(env: Env, s: State, survivors: set<RunId>, call: Call, r: RunId, spec: Spec, initialized: bool)
    requires CoreInv(s, survivors) && call !in s.launches
    ensures var s' := StartSegment(env, s, call, r, spec, initialized);
      CoreInv(s', survivors) && SettlesOnce(s, s')
  {
    assert TicketInv(s);
    hide Enter, UnisolatedWriteConflict, WorktreeRunConflict, EntryReason, CoreInv, SettlesOnce;
    BookkeepingKeeps(s, s, survivors);
    if r !in s.rows {
      EnterSettles(s, survivors, call, r, spec, ByStart, EntryReason(env, s.rows, spec));
    }
  }

  // A resume gives its row up or keeps it for the profile lookup.
  lemma TicketsChange(s: State, s1: State, survivors: set<RunId>)
    requires CoreInv(s, survivors) && TicketInv(s1) && s1 == s.(resumes := s1.resumes)
    ensures CoreInv(s1, survivors) && SettlesOnce(s, s1)
  {
  }

  lemma ResumeSettles(env: Env, s: State, survivors: set<RunId>, call: Call, r: RunId)
    requires CoreInv(s, survivors) && call !in s.launches && call !in s.resumes
    requires forall c | c in s.resumes :: s.resumes[c] != r
    ensures var s' := ResumeSegment(env, s, call, r);
      CoreInv(s', survivors) && SettlesOnce(s, s')
  {
    assert TicketInv(s);
    hide CoreInv, SettlesOnce, ResumeCommit;
    BookkeepingKeeps(s, s, survivors);
    if r in s.rows && s.rows[r].status.Interrupted? {
      if s.rows[r].spec.accountProfileId.None? {
        ResumeCommitSettles(env, s, survivors, call, r);
      } else {
        TicketsChange(s, s.(resumes := s.resumes[call := r]), survivors);
      }
    }
  }

  lemma ResumeReturnedSettles(env: Env, s: State, survivors: set<RunId>, call: Call, profileOk: bool)
    requires CoreInv(s, survivors) && call in s.resumes && call !in s.launches
    ensures var s' := Apply(env, s, ResumeReturned(call, profileOk));
      CoreInv(s', survivors) && SettlesOnce(s, s')
  {
    var s1 := s.(resumes := s.resumes - {call});
    var r := s.resumes[call];
    assert TicketInv(s) && TicketInv(s1);
    assert forall c | c in s1.resumes :: s1.resumes[c] != r;
    hide CoreInv, SettlesOnce, ResumeCommit;
    TicketsChange(s, s1, survivors);
    if profileOk {
      ResumeCommitSettles(env, s1, survivors, call, r);
      SettlesSame(s, s1, ResumeCommit(env, s1, call, r));
    }
  }

  lemma JudgedSettles(env: Env, s: State, survivors: set<RunId>, call: Call, limitRead: bool)
    requires CoreInv(s, survivors) && PassInv(s) && Enabled(s, PassJudged(call, limitRead))
    ensures var s' := PassJudgedSegment(env, s, call, limitRead);
      CoreInv(s', survivors) && SettlesOnce(s, s')
  {
    var Judging(listed, c, rest) := s.pass;
    assert c in [c] + rest;
    assert c in s.rows && !s.rows[c].status.Interrupted?;
    var skip := SkipReason(env, RunningForLimits(listed), c, listed[c].spec);
    hide SkipReason, CoreInv, SettlesOnce, PassInv, BeginLaunch, NextCandidate, UpdateQueuedReason;
    if limitRead && skip.None? {
      PromotionSettles(s, survivors, c, call);
    } else {
      SkipSettles(s, survivors, listed, c, listed[c].queuedReason, if limitRead then skip else None, rest);
    }
  }

  lemma ListedSettles(s: State, survivors: set<RunId>, order: seq<RunId>)
    requires CoreInv(s, survivors)
    ensures var s' := PassListedSegment(s, order);
      CoreInv(s', survivors) && SettlesOnce(s, s')
  {
    NextCandidateStays(s.(wakeUpsAtListing := s.wakeUps), ListActive(s.rows), order);
    hide NextCandidate, CoreInv, SettlesOnce;
    BookkeepingKeeps(s, PassListedSegment(s, order), survivors);
  }

  /**
   * Apart from those three, no segment settles a run twice, changes a settled
   * outcome, or writes an event its row does not agree with; and every segment
   * keeps the bindings consistent.
   */
  lemma SegmentSettlesOnce(env: Env, s: State, survivors: set<RunId>, l: Label)
    requires CoreInv(s, survivors) && PassInv(s) && Enabled(s, l) && NoOverlappingResume(s, l)
    ensures CoreInv(Apply(env, s, l), survivors)
    ensures OverwritesSettled(s, l) || SettlesOnce(s, Apply(env, s, l))
  {
    match l
    case Start(call, r, spec, initialized) => StartSettles(env, s, survivors, call, r, spec, initialized);
    case Resume(call, r) => ResumeSettles(env, s, survivors, call, r);
    case ResumeReturned(call, profileOk) => ResumeReturnedSettles(env, s, survivors, call, profileOk);
    case LaunchStarted(call, ok, classification) => LaunchStartedSettles(s, survivors, call, ok, classification);
    case LaunchIdentified(call) => LaunchIdentifiedSettles(s, survivors, call);
    case LaunchStopped(call) => LaunchStoppedSettles(s, survivors, call);
    case Exited(r, cleanExit, classification) => ExitedSettles(s, survivors, r, cleanExit, classification);
    case Cancel(call, r) => CancelSettles(s, survivors, call, r);
    case CancelReturned(call, ok) => CancelReturnedSettles(s, survivors, call, ok);
    case AdapterlessReturned(r) => AdapterlessSettles(s, survivors, r);
    case FailAndStop(r, intent, processManager) => FailStopSettles(s, survivors, r, intent, processManager);
    case FailStopStopped(r, outcome) => FailStopStoppedSettles(s, survivors, r, outcome);
    case FailStopProbed(r, alive) => FailStopProbedSettles(s, survivors, r, alive);
    case PassListed(order) => ListedSettles(s, survivors, order);
    case PassListFailed => BookkeepingKeeps(s, Apply(env, s, l), survivors);
    case PassJudged(call, limitRead) => JudgedSettles(env, s, survivors, call, limitRead);
  }

  lemma TicketsAreInterrupted(s: State, l: Label)
    requires TicketInv(s)
    ensures ResumesInterrupted(s, l)
  {
  }

  lemma InitialInv(env: Env, s: State)
    requires Initial(env, s)
    ensures Inv(env, s, Live(s).Keys) && LogAgrees(s, SettledIn(s.rows)) && NoStaleBinding(s, Live(s).Keys)
  {
    InitialAdmission(env, s);
    hide AdmissionInv;
  }

  /**
   * In every run in which no caller resumes a run that is already being resumed,
   * the limits and isolation rules hold at the end, whatever else interleaves.
   */
  lemma {:induction false} LimitsHoldWithoutOverlappingResumes(env: Env, s: State, survivors: set<RunId>, trace: seq<Label>)
    requires env.Valid() && Inv(env, s, survivors)
    requires IsRun(env, s, trace) && Always(env, s, trace, NoOverlappingResume)
    ensures Inv(env, After(env, s, trace), survivors)
    ensures Safe(env, Live(After(env, s, trace)))
    decreases |trace|
  {
    if trace != [] {
      var l := trace[0];
      assert TicketInv(s) && PassInv(s);
      TicketsAreInterrupted(s, l);
      hide Apply, Enabled, CoreInv, AdmissionInv;
      SegmentSettlesOnce(env, s, survivors, l);
      SegmentKeepsAdmission(env, s, l);
      LimitsHoldWithoutOverlappingResumes(env, Apply(env, s, l), survivors, trace[1..]);
    }
  }

  // ---- whole runs ----

  ghost predicate Clean(s: State, l: Label) {
    NoOverlappingResume(s, l) && !OverwritesSettled(s, l)
  }

  function TerminalEvents(log: seq<Settlement>, r: RunId): nat {
    if log == [] then 0
    else TerminalEvents(log[..|log| - 1], r) + (if log[|log| - 1].run == r then 1 else 0)
  }

  lemma OneMoreEvent(log: seq<Settlement>, x: Settlement, r: RunId)
    ensures TerminalEvents(log + [x], r) == TerminalEvents(log, r) + (if x.run == r then 1 else 0)
  {
    assert (log + [x])[..|log|] == log;
  }

  function SettledIn(rows: Runs): set<RunId> {
    set r | r in rows && rows[r].status in {Completed, Failed, Cancelled}
  }

  /**
   * The durable log and the rows agree: a run has exactly one terminal event if
   * it was settled in this process, and none otherwise, and every event names
   * the outcome of its row.
   */
  ghost predicate LogAgrees(s: State, settledBefore: set<RunId>) {
    && (forall r | r in settledBefore :: SettledRow(s, r))
    && (forall r :: TerminalEvents(s.settlements, r) == if SettledRow(s, r) && r !in settledBefore then 1 else 0)
    && (forall x | x in s.settlements :: Outcome(s, x))
  }

  lemma SettlesOnceKeepsLog(s: State, s': State, settledBefore: set<RunId>)
    requires LogAgrees(s, settledBefore) && SettlesOnce(s, s')
    ensures LogAgrees(s', settledBefore)
  {
    if s'.settlements != s.settlements {
      var x :| s'.settlements == s.settlements + [x] && FirstSettlement(s, s', x);
      forall r ensures TerminalEvents(s'.settlements, r) == if SettledRow(s', r) && r !in settledBefore then 1 else 0 {
        OneMoreEvent(s.settlements, x, r);
        assert SettledRow(s', r) <==> SettledRow(s, r) || r == x.run;
      }
      hide TerminalEvents;
      forall y | y in s'.settlements ensures Outcome(s', y) {
        if y != x { assert y in s.settlements && Outcome(s, y); }
      }
    }
  }

  /**
   * Settle once, over whole runs: with none of the three overwriting segments,
   * the log has exactly one terminal event for every run settled since the
   * process began and the rows agree with it, and a row settled at any point
   * keeps its status and classification to the end.
   */
  lemma {:induction false} EveryRunSettlesOnce(env: Env, s: State, survivors: set<RunId>, settledBefore: set<RunId>, trace: seq<Label>)
    requires env.Valid() && Inv(env, s, survivors) && LogAgrees(s, settledBefore)
    requires IsRun(env, s, trace) && Always(env, s, trace, Clean)
    ensures LogAgrees(After(env, s, trace), settledBefore)
    ensures SettledKept(s, After(env, s, trace))
    decreases |trace|
  {
    if trace != [] {
      var l := trace[0];
      var s1 := Apply(env, s, l);
      assert TicketInv(s) && PassInv(s);
      assert Clean(s, l);
      TicketsAreInterrupted(s, l);
      hide Apply, Enabled, CoreInv, AdmissionInv, LogAgrees;
      SegmentSettlesOnce(env, s, survivors, l);
      SegmentKeepsAdmission(env, s, l);
      SettlesOnceKeepsLog(s, s1, settledBefore);
      EveryRunSettlesOnce(env, s1, survivors, settledBefore, trace[1..]);
    }
  }

  // ---- exactly when a settled run is written again ----

  // A terminal event is written for a run that already has its outcome.
  ghost predicate SettlesAgain(s: State, s': State) {
    exists x :: s'.settlements == s.settlements + [x] && SettledRow(s, x.run)
  }

  lemma SettledTwiceExactly(env: Env, s: State, survivors: set<RunId>, l: Label)
    requires CoreInv(s, survivors) && PassInv(s) && Enabled(s, l) && NoOverlappingResume(s, l)
    ensures SettlesAgain(s, Apply(env, s, l)) <==> OverwritesSettled(s, l)
  {
    var s' := Apply(env, s, l);
    SegmentSettlesOnce(env, s, survivors, l);
    if OverwritesSettled(s, l) {
      OverwriteAppends(env, s, l);
    } else {
      OnceIsNotAgain(s, s');
    }
  }

  lemma OnceIsNotAgain(s: State, s': State)
    requires LogStep(s, s')
    ensures !SettlesAgain(s, s')
  {
    if s'.settlements != s.settlements {
      var y :| s'.settlements == s.settlements + [y] && FirstSettlement(s, s', y);
      assert s'.settlements[|s.settlements|] == y;
    }
  }

  lemma OverwriteAppends(env: Env, s: State, l: Label)
    requires Enabled(s, l) && OverwritesSettled(s, l)
    ensures SettlesAgain(s, Apply(env, s, l))
  {
    var s' := Apply(env, s, l);
    var x := s'.settlements[|s.settlements|];
    assert s'.settlements == s.settlements + [x] && SettledRow(s, x.run);
  }

  // ---- bindings that outlive their row ----

  /**
   * No binding outlives its row, and survivors of an earlier process are never
   * launched, queued or resumed.
   */
  ghost predicate NoStaleBinding(s: State, survivors: set<RunId>) {
    && (forall r | r in s.activeAdapters :: !SettledRow(s, r) && r !in survivors)
    && (forall r | r in survivors :: Launched(s, r))
    && (s.pass.Judging? ==> forall r | r in s.pass.listed && s.pass.listed[r].status.Queued? :: r !in survivors)
  }

  // The pass decides for a candidate that was settled while it waited for the limit.
  ghost predicate PromotesSettled(env: Env, s: State, l: Label) {
    && l.PassJudged? && l.limitRead && s.pass.Judging? && s.pass.candidate in s.pass.listed
    && SettledRow(s, s.pass.candidate)
    && SkipReason(env, RunningForLimits(s.pass.listed), s.pass.candidate, s.pass.listed[s.pass.candidate].spec).None?
  }

  // Bindings only go, and the bindings left have rows that were not settled now.
  ghost predicate BindingsShrink(s: State, s': State, survivors: set<RunId>) {
    forall r | r in s'.activeAdapters :: r in s.activeAdapters && (r !in survivors && SettledRow(s', r) ==> SettledRow(s, r))
  }

  lemma ShrinkingKeepsBindings(s: State, s': State, survivors: set<RunId>)
    requires NoStaleBinding(s, survivors) && Moves(s, s') && BindingsShrink(s, s', survivors)
    ensures NoStaleBinding(s', survivors)
  {
    forall r | r in survivors ensures Launched(s', r) {
      assert Launched(s, r) && QuietRow(s.rows[r], s'.rows[r]);
    }
  }

  lemma ExitedShrinks(s: State, survivors: set<RunId>, r: RunId, cleanExit: bool, classification: Option<Classification>)
    ensures BindingsShrink(s, ExitedSegment(s, r, cleanExit, classification), survivors)
  {
  }

  lemma CancelShrinks(s: State, survivors: set<RunId>, call: Call, r: RunId)
    requires CoreInv(s, survivors)
    ensures BindingsShrink(s, CancelSegment(s, call, r), survivors)
  {
    assert r in s.rows && s.rows[r].status.Queued? ==> r !in s.activeAdapters by {
      assert r in s.rows && s.rows[r].status.Queued? ==> !Launched(s, r);
    }
    hide CoreInv;
    if r in s.rows && s.rows[r].status.Queued? {
    } else {
      hide CancelQueued;
    }
  }

  lemma CancelReturnedShrinks(s: State, survivors: set<RunId>, call: Call, ok: bool)
    requires call in s.cancels
    ensures BindingsShrink(s, CancelReturnedSegment(s, call, ok), survivors)
  {
  }

  lemma AdapterlessShrinks(s: State, survivors: set<RunId>, r: RunId)
    requires r in survivors
    ensures BindingsShrink(s, AdapterlessSegment(s, r), survivors)
  {
  }

  lemma FailStopShrinks(s: State, survivors: set<RunId>, r: RunId, classification: Classification, processManager: bool)
    ensures BindingsShrink(s, FailStopSegment(s, r, classification, processManager), survivors)
  {
  }

  lemma FailStopStoppedShrinks(s: State, survivors: set<RunId>, r: RunId, outcome: StopOutcome)
    requires r in s.failStops
    ensures BindingsShrink(s, FailStopStoppedSegment(s, r, outcome), survivors)
  {
  }

  lemma FailStopProbedShrinks(s: State, survivors: set<RunId>, r: RunId, alive: bool)
    requires r in s.failStops
    ensures BindingsShrink(s, FailStopProbedSegment(s, r, alive), survivors)
  {
  }

  lemma LaunchShrinks(env: Env, s: State, survivors: set<RunId>, l: Label)
    requires Enabled(s, l) && LaunchInv(s)
    requires l.LaunchStarted? || l.LaunchIdentified? || l.LaunchStopped?
    ensures BindingsShrink(s, Apply(env, s, l), survivors)
  {
    assert Launched(s, s.launches[l.call].run);
    match l
    case LaunchStarted(_, ok, _) => if ok { hide EndLaunch; } else { }
    case LaunchIdentified(_) => if s.rows[s.launches[l.call].run].status.Terminal() { hide EndLaunch; } else { }
    case LaunchStopped(_) =>
  }

  // A launch or a queue entry of a run that is no survivor.
  lemma EnteringKeepsBindings(s: State, s': State, survivors: set<RunId>, r: RunId)
    requires NoStaleBinding(s, survivors) && !Launched(s, r)
    requires s'.rows.Keys == s.rows.Keys + {r} && (forall q | q in s.rows && q != r :: s'.rows[q] == s.rows[q])
    requires s'.rows[r].status.Queued? || s'.rows[r].status.Preparing?
    requires s'.activeAdapters <= s.activeAdapters + {r}
    requires SamePass(s, s')
    ensures NoStaleBinding(s', survivors)
  {
  }

  lemma EnterKeepsBindings(s: State, survivors: set<RunId>, call: Call, r: RunId, spec: Spec, caller: Caller, reason: Option<QueuedReason>)
    requires NoStaleBinding(s, survivors) && !Launched(s, r)
    ensures NoStaleBinding(Enter(s, call, r, spec, caller, reason), survivors)
  {
    hide NoStaleBinding, Launched;
    if reason.Some? {
      EnteringKeepsBindings(s, Enter(s, call, r, spec, caller, reason), survivors, r);
    } else {
      EnteringKeepsBindings(s, Enter(s, call, r, spec, caller, reason), survivors, r);
    }
  }

  lemma ResumeCommitKeepsBindings(env: Env, s: State, survivors: set<RunId>, call: Call, r: RunId)
    requires NoStaleBinding(s, survivors) && !Launched(s, r)
    ensures NoStaleBinding(ResumeCommit(env, s, call, r), survivors)
  {
    hide NoStaleBinding, Launched, Enter, EntryReason, UnisolatedWriteConflict, WorktreeRunConflict;
    if r in s.rows {
      EnterKeepsBindings(s, survivors, call, r, s.rows[r].spec, ByResume, EntryReason(env, s.rows, s.rows[r].spec));
    }
  }

  lemma StartKeepsBindings(env: Env, s: State, survivors: set<RunId>, call: Call, r: RunId, spec: Spec, initialized: bool)
    requires NoStaleBinding(s, survivors)
    ensures NoStaleBinding(StartSegment(env, s, call, r, spec, initialized), survivors)
  {
    hide NoStaleBinding, Enter, EntryReason, UnisolatedWriteConflict, WorktreeRunConflict;
    if r !in s.rows {
      EnterKeepsBindings(s, survivors, call, r, spec, ByStart, EntryReason(env, s.rows, spec));
    }
  }

  lemma ResumeKeepsBindings(env: Env, s: State, survivors: set<RunId>, l: Label)
    requires NoStaleBinding(s, survivors) && TicketInv(s) && Enabled(s, l)
    requires l.Resume? || l.ResumeReturned?
    ensures NoStaleBinding(Apply(env, s, l), survivors)
  {
    if l.Resume? {
      if l.run in s.rows && s.rows[l.run].status.Interrupted? && s.rows[l.run].spec.accountProfileId.None? {
        hide NoStaleBinding, ResumeCommit;
        ResumeCommitKeepsBindings(env, s, survivors, l.call, l.run);
      } else {
        hide ResumeCommit;
      }
    } else {
      hide ResumeCommit;
      var s1 := s.(resumes := s.resumes - {l.call});
      assert NoStaleBinding(s1, survivors);
      assert !Launched(s1, s.resumes[l.call]);
      hide NoStaleBinding, TicketInv;
      if l.profileOk { ResumeCommitKeepsBindings(env, s1, survivors, l.call, s.resumes[l.call]); }
    }
  }

  lemma ListedKeepsBindings(s: State, survivors: set<RunId>, order: seq<RunId>)
    requires NoStaleBinding(s, survivors)
    ensures NoStaleBinding(PassListedSegment(s, order), survivors)
  {
    NextCandidateStays(s.(wakeUpsAtListing := s.wakeUps), ListActive(s.rows), order);
    hide NextCandidate;
    forall r | r in ListActive(s.rows) && s.rows[r].status.Queued? ensures r !in survivors {
      assert !Launched(s, r);
    }
  }

  lemma PromotionBinds(s: State, survivors: set<RunId>, c: RunId, call: Call)
    requires NoStaleBinding(s, survivors) && c in s.rows && c !in survivors
    requires s.rows[c].status in {Queued, Completed, Failed, Cancelled}
    ensures var s' := BeginLaunch(s.(pendingRuns := s.pendingRuns - {c}), c, call, ByQueue).(pass := Promoting(call));
      NoStaleBinding(s', survivors) <==> !SettledRow(s, c)
  {
    var s' := BeginLaunch(s.(pendingRuns := s.pendingRuns - {c}), c, call, ByQueue).(pass := Promoting(call));
    if SettledRow(s, c) {
      assert c in s'.activeAdapters && SettledRow(s', c);
    }
  }

  lemma JudgedKeepsBindings(env: Env, s: State, survivors: set<RunId>, call: Call, limitRead: bool)
    requires NoStaleBinding(s, survivors) && PassInv(s) && Enabled(s, PassJudged(call, limitRead))
    ensures NoStaleBinding(PassJudgedSegment(env, s, call, limitRead), survivors)
      <==> !PromotesSettled(env, s, PassJudged(call, limitRead))
  {
    var Judging(listed, c, rest) := s.pass;
    assert c in [c] + rest;
    assert c in s.rows && s.rows[c].status in {Queued, Completed, Failed, Cancelled} && c !in survivors;
    var skip := SkipReason(env, RunningForLimits(listed), c, listed[c].spec);
    hide SkipReason, PassInv, BeginLaunch, NextCandidate, UpdateQueuedReason;
    if limitRead && skip.None? {
      hide NoStaleBinding;
      PromotionBinds(s, survivors, c, call);
    } else {
      var chosen := if limitRead then skip else None;
      SkipShrinks(s, survivors, listed, c, listed[c].queuedReason, chosen, rest);
      SkippingMoves(s, chosen);
      hide NoStaleBinding, Moves;
      ShrinkingKeepsBindings(s, PassJudgedSegment(env, s, call, limitRead), survivors);
    }
  }

  lemma SkipShrinks(s: State, survivors: set<RunId>, listed: Runs, c: RunId, known: Option<QueuedReason>, skip: Option<QueuedReason>, rest: seq<RunId>)
    ensures var s1 := if skip.Some? then UpdateQueuedReason(s, c, known, skip.value) else s;
      BindingsShrink(s, NextCandidate(s1, listed, rest), survivors)
  {
    var s1 := if skip.Some? then UpdateQueuedReason(s, c, known, skip.value) else s;
    NextCandidateStays(s1, listed, rest);
    hide NextCandidate;
  }

  lemma OtherSegmentShrinks(env: Env, s: State, survivors: set<RunId>, l: Label)
    requires CoreInv(s, survivors) && Enabled(s, l)
    requires !l.Start? && !l.Resume? && !l.ResumeReturned? && !l.PassListed? && !l.PassJudged?
    ensures BindingsShrink(s, Apply(env, s, l), survivors)
  {
    match l
    case Exited(r, cleanExit, classification) => ExitedShrinks(s, survivors, r, cleanExit, classification);
    case Cancel(call, r) => CancelShrinks(s, survivors, call, r);
    case CancelReturned(call, ok) => CancelReturnedShrinks(s, survivors, call, ok);
    case AdapterlessReturned(r) => AdapterlessShrinks(s, survivors, r);
    case FailAndStop(r, intent, processManager) => FailStopShrinks(s, survivors, r, intent, processManager);
    case FailStopStopped(r, outcome) => FailStopStoppedShrinks(s, survivors, r, outcome);
    case FailStopProbed(r, alive) => FailStopProbedShrinks(s, survivors, r, alive);
    case PassListFailed =>
    case _ => LaunchShrinks(env, s, survivors, l);
  }

  /**
   * A binding comes to outlive its row exactly when the queue pass promotes a
   * candidate that was settled meanwhile; so only then can a later exit settle a
   * run again.
   */
  lemma StaleBindingExactly(env: Env, s: State, survivors: set<RunId>, l: Label)
    requires CoreInv(s, survivors) && PassInv(s) && NoStaleBinding(s, survivors) && Enabled(s, l)
    ensures NoStaleBinding(Apply(env, s, l), survivors) <==> !PromotesSettled(env, s, l)
  {
    match l
    case Start(call, r, spec, initialized) => StartKeepsBindings(env, s, survivors, call, r, spec, initialized);
    case Resume(_, _) => ResumeKeepsBindings(env, s, survivors, l);
    case ResumeReturned(_, _) => ResumeKeepsBindings(env, s, survivors, l);
    case PassListed(order) => ListedKeepsBindings(s, survivors, order);
    case PassJudged(call, limitRead) => JudgedKeepsBindings(env, s, survivors, call, limitRead);
    case _ =>
      OtherSegmentShrinks(env, s, survivors, l);
      OtherSegmentMoves(env, s, l);
      ShrinkingKeepsBindings(s, Apply(env, s, l), survivors);
  }

  // ---- settle once, whatever interleaves ----

  // What the settle-once promise leaves out: a failing start and an adapterless
  // cancel write without looking, and the pass may promote a settled candidate.
  ghost predicate Tame(env: Env, s: State, l: Label) {
    && NoOverlappingResume(s, l)
    && !PromotesSettled(env, s, l)
    && (!l.Exited? ==> !OverwritesSettled(s, l))
  }

  ghost function TameIn(env: Env): (State, Label) -> bool { (s, l) => Tame(env, s, l) }

  lemma ExitsSettleOnce(s: State, survivors: set<RunId>, l: Label)
    requires NoStaleBinding(s, survivors) && (!l.Exited? ==> !OverwritesSettled(s, l))
    ensures !OverwritesSettled(s, l)
  {
  }

  /**
   * Exits, cancels and fail-and-stops in any interleaving settle a run once: no
   * binding outlives its row, the log has exactly one event, with the outcome of
   * the row, for every run settled since the process began, and a settled row is
   * final.
   */
  lemma {:induction false} EveryInterleavingSettlesOnce(env: Env, s: State, survivors: set<RunId>, settledBefore: set<RunId>,
                                                        trace: seq<Label>)
    requires env.Valid() && Inv(env, s, survivors) && LogAgrees(s, settledBefore) && NoStaleBinding(s, survivors)
    requires IsRun(env, s, trace) && Always(env, s, trace, TameIn(env))
    ensures LogAgrees(After(env, s, trace), settledBefore) && NoStaleBinding(After(env, s, trace), survivors)
    ensures SettledKept(s, After(env, s, trace))
    decreases |trace|
  {
    if trace != [] {
      var l := trace[0];
      var s1 := Apply(env, s, l);
      assert TicketInv(s) && PassInv(s) && TameIn(env)(s, l);
      TicketsAreInterrupted(s, l);
      ExitsSettleOnce(s, survivors, l);
      hide Apply, Enabled, CoreInv, AdmissionInv, LogAgrees, NoStaleBinding, TameIn, OverwritesSettled, PromotesSettled;
      StaleBindingExactly(env, s, survivors, l);
      SegmentSettlesOnce(env, s, survivors, l);
      SegmentKeepsAdmission(env, s, l);
      SettlesOnceKeepsLog(s, s1, settledBefore);
      EveryInterleavingSettlesOnce(env, s1, survivors, settledBefore, trace[1..]);
    }
  }
}
