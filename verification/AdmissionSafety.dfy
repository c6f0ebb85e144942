/**
 * Admission safety of the run lifecycle: in every interleaving the runs that
 * hold a slot stay within every limit and isolated from each other, although
 * the queue pass promotes on a listing that may be stale.
 */
module AdmissionSafety {
  import opened Common
  import opened RunAdmission
  import opened RunLifecycle

  // Rows are never removed and never change what admission looks at.
  ghost predicate KeepsSpecs(rows: Runs, rows': Runs) {
    forall r | r in rows :: r in rows' && rows'[r].spec == rows[r].spec
  }

  ghost predicate StillWaiting(rows: Runs, listed: Runs, r: RunId) {
    r in listed && listed[r].status.Queued? && r in rows && rows[r].status.Queued?
  }

  /**
   * The key fact about a listing the pass has not finished with: as long as one
   * of its queued rows is still queued, no run holds a slot now that did not
   * hold one then.  Every newcomer queues behind a queued row, and only the pass
   * itself takes rows out of the queue into a slot.
   */
  ghost predicate ListingCovers(s: State, listed: Runs) {
    && KeepsSpecs(listed, s.rows)
    && (forall r | r in listed && listed[r].status.Queued? ::
          s.rows[r].status in {Queued, Completed, Failed, Cancelled})
    && ((exists r :: StillWaiting(s.rows, listed, r)) ==> Covered(Live(s), RunningForLimits(listed)))
  }

  ghost predicate PassInv(s: State) {
    s.pass.Judging? ==>
      && ListingCovers(s, s.pass.listed)
      && (forall c | c in [s.pass.candidate] + s.pass.rest ::
            c in s.pass.listed && s.pass.listed[c].status.Queued?)
  }

  // A row whose launch is in flight is neither waiting nor resumable.
  ghost predicate LaunchInv(s: State) {
    forall c | c in s.launches :: Launched(s, s.launches[c].run)
  }

  ghost predicate Launched(s: State, r: RunId) {
    r in s.rows && !s.rows[r].status.Queued? && !s.rows[r].status.Interrupted?
  }

  ghost predicate AdmissionInv(env: Env, s: State) {
    && Safe(env, Live(s))
    && PassInv(s)
    && LaunchInv(s)
  }

  /**
   * What the code leaves to its callers: a resume writes the row it read as
   * interrupted without reading it again after the profile lookup.
   */
  ghost predicate ResumesInterrupted(s: State, l: Label) {
    l.ResumeReturned? && l.profileOk && l.call in s.resumes && s.resumes[l.call] in s.rows ==>
      s.rows[s.resumes[l.call]].status.Interrupted?
  }

  // A row changes without anyone entering the queue or a slot.
  ghost predicate QuietRow(run: Run, run': Run) {
    && run'.spec == run.spec
    && (run'.status == run.status
        || run'.status in {Completed, Failed, Cancelled}
        || (run.status.Live() && run'.status.Live()))
  }

  ghost predicate Quiet(s: State, s': State) {
    QuietRows(s.rows, s'.rows)
  }

  lemma QuietKeepsListing(s: State, s': State, listed: Runs)
    requires Quiet(s, s') && ListingCovers(s, listed)
    ensures ListingCovers(s', listed)
  {
    if r :| StillWaiting(s'.rows, listed, r) {
      assert QuietRow(s.rows[r], s'.rows[r]);
      assert StillWaiting(s.rows, listed, r);
      forall q | q in Live(s') ensures q in RunningForLimits(listed) && RunningForLimits(listed)[q].spec == Live(s')[q].spec {
        assert QuietRow(s.rows[q], s'.rows[q]);
        assert q in Live(s);
      }
    }
    forall r | r in listed && listed[r].status.Queued? ensures s'.rows[r].status in {Queued, Completed, Failed, Cancelled} {
      assert QuietRow(s.rows[r], s'.rows[r]);
    }
  }

  ghost predicate Suffix(a: seq<RunId>, b: seq<RunId>) {
    |a| <= |b| && a == b[|b| - |a|..]
  }

  // The pass moves on within its listing, lists again, ends, or goes to promote.
  ghost predicate SamePass(s: State, s': State) {
    s'.pass.Judging? ==>
      && s.pass.Judging?
      && s'.pass.listed == s.pass.listed
      && Suffix([s'.pass.candidate] + s'.pass.rest, [s.pass.candidate] + s.pass.rest)
  }

  ghost predicate NoNewLaunch(s: State, s': State) {
    forall c | c in s'.launches :: c in s.launches && s'.launches[c].run == s.launches[c].run
  }

  // The effect of every segment that admits nobody.
  ghost predicate Moves(s: State, s': State) {
    Quiet(s, s') && SamePass(s, s') && NoNewLaunch(s, s')
  }

  ghost predicate QuietRows(rows: Runs, rows': Runs) {
    rows'.Keys == rows.Keys && (forall r | r in rows :: QuietRow(rows[r], rows'[r]))
  }

  lemma SettlingIsQuiet(rows: Runs, r: RunId, status: Status, classification: Option<Classification>)
    requires status in {Completed, Failed, Cancelled}
    ensures QuietRows(rows, SettleRow(rows, r, status, classification))
    ensures QuietRows(rows, LeaveQueue(SettleRow(rows, r, status, classification), r))
  {
  }

  lemma MovesBy(s: State, s': State)
    requires QuietRows(s.rows, s'.rows) && NoNewLaunch(s, s')
    requires s'.pass == s.pass || !s'.pass.Judging?
    ensures Moves(s, s')
  {
  }

  lemma QuietKeepsSafe(env: Env, s: State, s': State)
    requires Safe(env, Live(s)) && Quiet(s, s')
    ensures Safe(env, Live(s'))
  {
    hide Safe;
    forall q | q in Live(s') ensures q in Live(s) && Live(s)[q].spec == Live(s')[q].spec {
      assert QuietRow(s.rows[q], s'.rows[q]);
    }
    SafeShrinks(env, Live(s), Live(s'));
  }

  lemma QuietKeepsPass(s: State, s': State)
    requires PassInv(s) && Quiet(s, s') && SamePass(s, s')
    ensures PassInv(s')
  {
    if s'.pass.Judging? {
      QuietKeepsListing(s, s', s.pass.listed);
      hide ListingCovers, Quiet;
    }
  }

  lemma QuietKeepsLaunches(s: State, s': State)
    requires LaunchInv(s) && Quiet(s, s') && NoNewLaunch(s, s')
    ensures LaunchInv(s')
  {
    forall c | c in s'.launches ensures Launched(s', s'.launches[c].run) {
      var r := s.launches[c].run;
      assert Launched(s, r) && QuietRow(s.rows[r], s'.rows[r]);
    }
  }

  lemma MovesKeepAdmission(env: Env, s: State, s': State)
    requires AdmissionInv(env, s) && Moves(s, s')
    ensures AdmissionInv(env, s')
  {
    hide Safe, PassInv, LaunchInv, Quiet, SamePass, NoNewLaunch, Live;
    QuietKeepsSafe(env, s, s');
    QuietKeepsPass(s, s');
    QuietKeepsLaunches(s, s');
  }

  lemma {:induction false} NextCandidateStays(s: State, listed: Runs, rest: seq<RunId>)
    ensures var s' := NextCandidate(s, listed, rest);
      && s' == s.(pass := s'.pass, advanceAgain := s'.advanceAgain)
      && (s'.pass.Judging? ==>
            && s'.pass.listed == listed
            && Suffix([s'.pass.candidate] + s'.pass.rest, rest))
      && !s'.pass.Promoting?
  {
    if rest == [] {
    } else if rest[0] in s.pendingRuns {
      assert [rest[0]] + rest[1..] == rest;
    } else {
      NextCandidateStays(s, listed, rest[1..]);
      var s' := NextCandidate(s, listed, rest[1..]);
      assert NextCandidate(s, listed, rest) == s';
      if s'.pass.Judging? { SuffixOfTail([s'.pass.candidate] + s'.pass.rest, rest); }
    }
  }

  lemma SuffixOfTail(a: seq<RunId>, b: seq<RunId>)
    requires b != [] && Suffix(a, b[1..])
    ensures Suffix(a, b)
  {
    assert b[1..][|b| - 1 - |a|..] == b[|b| - |a|..];
  }

  // One row enters: as a newcomer or as a resumed run.
  ghost predicate Enters(s: State, s': State, r: RunId, run: Run) {
    && s'.rows == s.rows[r := run]
    && (r in s.rows ==> s.rows[r].status.Interrupted? && s.rows[r].spec == run.spec)
    && (run.status.Queued? || (run.status.Preparing? && !AnyQueued(ListActive(s.rows))))
  }

  lemma EnteringKeepsListing(s: State, s': State, r: RunId, run: Run, listed: Runs)
    requires Enters(s, s', r, run) && ListingCovers(s, listed)
    ensures ListingCovers(s', listed)
  {
    if c :| StillWaiting(s'.rows, listed, c) {
      assert c != r;
      assert StillWaiting(s.rows, listed, c);
      assert c in ListActive(s.rows);
      assert AnyQueued(ListActive(s.rows));
      assert Live(s') == Live(s);
    }
  }

  // The only new launch in flight is one of a row r that is preparing.
  ghost predicate OnlyLaunches(s: State, s': State, r: RunId)
    requires r in s'.rows
  {
    forall c | c in s'.launches ::
      || (c in s.launches && s'.launches[c].run == s.launches[c].run)
      || (s'.launches[c].run == r && s'.rows[r].status.Preparing?)
  }

  lemma EnteringKeepsAdmission(env: Env, s: State, s': State, r: RunId, run: Run)
    requires env.Valid() && AdmissionInv(env, s) && Enters(s, s', r, run) && SamePass(s, s')
    requires run.status.Preparing? ==> Admitted(env, Live(s), Some(r), run.spec)
    requires OnlyLaunches(s, s', r) && r in s'.rows
    ensures AdmissionInv(env, s')
  {
    hide Safe, HasCapacity, UnisolatedWriteConflict, WorktreeRunConflict;
    if run.status.Preparing? {
      assert Live(s') == Live(s)[r := run];
      AdmitKeepsSafe(env, Live(s), Live(s), r, run);
    } else {
      assert Live(s') == Live(s);
    }
    if s'.pass.Judging? { EnteringKeepsListing(s, s', r, run, s.pass.listed); }
    forall c | c in s'.launches ensures Launched(s', s'.launches[c].run) {
      if c in s.launches && s'.launches[c].run == s.launches[c].run {
        assert Launched(s, s.launches[c].run);
      }
    }
  }

  lemma EnterEnters(s: State, call: Call, r: RunId, spec: Spec, caller: Caller, reason: Option<QueuedReason>)
    requires call !in s.launches
    requires r in s.rows ==> s.rows[r].status.Interrupted? && s.rows[r].spec == spec
    requires reason.None? ==> !AnyQueued(ListActive(s.rows))
    ensures var s' := Enter(s, call, r, spec, caller, reason);
      && r in s'.rows && s'.rows[r].spec == spec
      && (s'.rows[r].status.Preparing? <==> reason.None?)
      && Enters(s, s', r, s'.rows[r])
      && SamePass(s, s')
      && OnlyLaunches(s, s', r)
  {
    hide AnyQueued, ListActive;
    if reason.Some? {
    } else {
    }
  }

  lemma EntryReasonAdmits(env: Env, rows: Runs, spec: Spec, exclude: Option<RunId>)
    requires EntryReason(env, rows, spec).None?
    requires !UnisolatedWriteConflict(RunningForLimits(ListActive(rows)), spec)
    requires !WorktreeRunConflict(RunningForLimits(ListActive(rows)), spec.worktreeId, exclude)
    ensures !AnyQueued(ListActive(rows))
    ensures Admitted(env, RunningForLimits(ListActive(rows)), exclude, spec)
  {
    hide HasCapacity, UnisolatedWriteConflict, WorktreeRunConflict, AnyQueued, ListActive, RunningForLimits;
  }

  lemma EnterKeepsAdmission(env: Env, s: State, call: Call, r: RunId, spec: Spec, caller: Caller)
    requires env.Valid() && AdmissionInv(env, s) && call !in s.launches
    requires r in s.rows ==> s.rows[r].status.Interrupted? && s.rows[r].spec == spec
    requires !UnisolatedWriteConflict(RunningForLimits(ListActive(s.rows)), spec)
    requires !WorktreeRunConflict(RunningForLimits(ListActive(s.rows)), spec.worktreeId, Some(r))
    ensures AdmissionInv(env, Enter(s, call, r, spec, caller, EntryReason(env, s.rows, spec)))
  {
    var reason := EntryReason(env, s.rows, spec);
    var s' := Enter(s, call, r, spec, caller, reason);
    hide AdmissionInv, EntryReason, Admitted, UnisolatedWriteConflict, WorktreeRunConflict;
    if reason.None? { EntryReasonAdmits(env, s.rows, spec, Some(r)); }
    EnterEnters(s, call, r, spec, caller, reason) by {
      if reason.Some? { } else { }
    }
    hide Enter, Enters;
    LiveIs(s);
    EnteringKeepsAdmission(env, s, s', r, s'.rows[r]);
  }

  lemma StartKeepsAdmission(env: Env, s: State, call: Call, r: RunId, spec: Spec, initialized: bool)
    requires env.Valid() && AdmissionInv(env, s) && call !in s.launches
    ensures AdmissionInv(env, StartSegment(env, s, call, r, spec, initialized))
  {
    hide AdmissionInv, Enter;
    if StartSegment(env, s, call, r, spec, initialized) != s {
      ExcludeAbsent(RunningForLimits(ListActive(s.rows)), spec.worktreeId, r);
      hide UnisolatedWriteConflict, WorktreeRunConflict, EntryReason;
      EnterKeepsAdmission(env, s, call, r, spec, ByStart);
    }
  }

  lemma ResumeKeepsAdmission(env: Env, s: State, call: Call, r: RunId)
    requires env.Valid() && AdmissionInv(env, s) && call !in s.launches
    requires r in s.rows ==> s.rows[r].status.Interrupted?
    ensures AdmissionInv(env, ResumeCommit(env, s, call, r))
  {
    hide AdmissionInv, Enter, UnisolatedWriteConflict, WorktreeRunConflict, EntryReason;
    if ResumeCommit(env, s, call, r) != s {
      EnterKeepsAdmission(env, s, call, r, s.rows[r].spec, ByResume);
    }
  }

  lemma LiveIs(s: State)
    ensures Live(s) == RunningForLimits(ListActive(s.rows))
  {
  }

  // What the pass does when it promotes its candidate.
  lemma PromotionShape(env: Env, s: State, call: Call)
    requires s.pass.Judging? && call !in s.launches
    requires s.pass.candidate in s.pass.listed && s.pass.candidate in s.rows
    requires SkipReason(env, RunningForLimits(s.pass.listed), s.pass.candidate, s.pass.listed[s.pass.candidate].spec).None?
    ensures var s' := PassJudgedSegment(env, s, call, true);
      var c := s.pass.candidate;
      && (s.rows[c].status.Queued? ==> s'.rows == s.rows[c := s.rows[c].(status := Preparing, queuedReason := None)])
      && (!s.rows[c].status.Queued? ==> s'.rows == s.rows)
      && s'.launches.Keys == s.launches.Keys + {call}
      && s'.launches[call].run == c
      && (forall k | k in s.launches :: s'.launches[k] == s.launches[k])
      && s'.pass == Promoting(call)
  {
    hide SkipReason;
  }

  lemma SkipReasonAdmits(env: Env, active: Runs, c: RunId, spec: Spec)
    requires SkipReason(env, active, c, spec).None?
    ensures Admitted(env, active, Some(c), spec)
  {
    hide HasCapacity, UnisolatedWriteConflict, WorktreeRunConflict;
  }

  /** The stale decision: what the pass admits against its listing is admissible now. */
  lemma PromotionKeepsSafe(env: Env, s: State, rows': Runs)
    requires env.Valid() && Safe(env, Live(s)) && s.pass.Judging? && s.pass.candidate in s.rows
    requires ListingCovers(s, s.pass.listed) && StillWaiting(s.rows, s.pass.listed, s.pass.candidate)
    requires Admitted(env, RunningForLimits(s.pass.listed), Some(s.pass.candidate), s.rows[s.pass.candidate].spec)
    requires rows' == s.rows[s.pass.candidate := s.rows[s.pass.candidate].(status := Preparing, queuedReason := None)]
    ensures Safe(env, RunningForLimits(ListActive(rows')))
  {
    hide Safe, Admitted;
    var c := s.pass.candidate;
    AdmitKeepsSafe(env, RunningForLimits(s.pass.listed), Live(s), c, rows'[c]);
    assert RunningForLimits(ListActive(rows')) == Live(s)[c := rows'[c]];
  }

  lemma PromotionKeepsLaunches(env: Env, s: State, call: Call)
    requires LaunchInv(s) && s.pass.Judging? && call !in s.launches
    requires s.pass.candidate in s.pass.listed && s.pass.candidate in s.rows
    requires !s.rows[s.pass.candidate].status.Interrupted?
    requires SkipReason(env, RunningForLimits(s.pass.listed), s.pass.candidate, s.pass.listed[s.pass.candidate].spec).None?
    ensures LaunchInv(PassJudgedSegment(env, s, call, true))
  {
    var s' := PassJudgedSegment(env, s, call, true);
    PromotionShape(env, s, call);
    hide PassJudgedSegment, SkipReason;
    forall k | k in s'.launches ensures Launched(s', s'.launches[k].run) {
      if k != call { assert Launched(s, s.launches[k].run); }
    }
  }

  lemma PromotionKeepsAdmission(env: Env, s: State, call: Call)
    requires env.Valid() && AdmissionInv(env, s) && s.pass.Judging? && call !in s.launches
    requires s.pass.candidate in s.pass.listed
    requires SkipReason(env, RunningForLimits(s.pass.listed), s.pass.candidate, s.pass.listed[s.pass.candidate].spec).None?
    ensures AdmissionInv(env, PassJudgedSegment(env, s, call, true))
  {
    var s' := PassJudgedSegment(env, s, call, true);
    var c := s.pass.candidate;
    var listed := s.pass.listed;
    assert c in [c] + s.pass.rest;
    SkipReasonAdmits(env, RunningForLimits(listed), c, listed[c].spec);
    hide SkipReason, Admitted, Safe, Live;
    PromotionKeepsLaunches(env, s, call);
    PromotionShape(env, s, call);
    hide PassJudgedSegment, LaunchInv;
    if s.rows[c].status.Queued? {
      assert StillWaiting(s.rows, listed, c);
      PromotionKeepsSafe(env, s, s'.rows);
    }
    assert Live(s') == RunningForLimits(ListActive(s'.rows)) by { LiveIs(s'); }
    assert Live(s) == RunningForLimits(ListActive(s.rows)) by { LiveIs(s); }
  }

  lemma SkippingMoves(s: State, skip: Option<QueuedReason>)
    requires s.pass.Judging? && s.pass.candidate in s.pass.listed
    ensures var s1 := if skip.Some? then UpdateQueuedReason(s, s.pass.candidate, s.pass.listed[s.pass.candidate].queuedReason, skip.value) else s;
      Moves(s, NextCandidate(s1, s.pass.listed, s.pass.rest))
  {
    var Judging(listed, c, rest) := s.pass;
    hide NextCandidate, UpdateQueuedReason, Moves, QuietRows;
    if skip.Some? {
      ReasonIsQuiet(s, c, listed[c].queuedReason, skip.value);
      ScanMoves(s, UpdateQueuedReason(s, c, listed[c].queuedReason, skip.value));
    } else {
      assert QuietRows(s.rows, s.rows) by { NothingIsQuiet(s.rows); }
      ScanMoves(s, s);
    }
  }

  lemma NothingIsQuiet(rows: Runs)
    ensures QuietRows(rows, rows)
  {
  }

  lemma ReasonIsQuiet(s: State, c: RunId, known: Option<QueuedReason>, reason: QueuedReason)
    ensures var s1 := UpdateQueuedReason(s, c, known, reason); QuietRows(s.rows, s1.rows) && s1 == s.(rows := s1.rows)
  {
  }

  // The scan goes on after the rows changed quietly.
  lemma ScanMoves(s: State, s1: State)
    requires s.pass.Judging? && QuietRows(s.rows, s1.rows) && s1 == s.(rows := s1.rows)
    ensures Moves(s, NextCandidate(s1, s.pass.listed, s.pass.rest))
  {
    NextCandidateStays(s1, s.pass.listed, s.pass.rest);
    hide NextCandidate, QuietRow;
  }

  lemma JudgingKeepsAdmission(env: Env, s: State, call: Call, limitRead: bool)
    requires env.Valid() && AdmissionInv(env, s) && Enabled(s, PassJudged(call, limitRead))
    ensures AdmissionInv(env, PassJudgedSegment(env, s, call, limitRead))
  {
    var Judging(listed, c, rest) := s.pass;
    var skip := SkipReason(env, RunningForLimits(listed), c, listed[c].spec);
    hide AdmissionInv, SkipReason, NextCandidate, Moves;
    if limitRead && skip.None? {
      PromotionKeepsAdmission(env, s, call);
    } else {
      SkippingMoves(s, if limitRead then skip else None);
      MovesKeepAdmission(env, s, PassJudgedSegment(env, s, call, limitRead));
    }
  }

  lemma ListingKeepsAdmission(env: Env, s: State, order: seq<RunId>)
    requires AdmissionInv(env, s) && Enabled(s, PassListed(order))
    ensures AdmissionInv(env, PassListedSegment(s, order))
  {
    var s1 := s.(wakeUpsAtListing := s.wakeUps);
    var s' := PassListedSegment(s, order);
    NextCandidateStays(s1, ListActive(s.rows), order);
    hide Safe, NextCandidate;
    assert s'.rows == s.rows && Live(s') == Live(s);
    forall k | k in s'.launches ensures Launched(s', s'.launches[k].run) {
      assert Launched(s, s.launches[k].run);
    }
  }

  lemma FinishFailedMoves(s: State, call: Call, classification: Option<Classification>)
    requires call in s.launches
    ensures var r := s.launches[call].run;
      Moves(s, EndLaunch(FinishFailed(s, r, classification), call, r in s.rows))
  {
  }

  lemma LaunchStartedMoves(s: State, call: Call, ok: bool, classification: Option<Classification>)
    requires call in s.launches && Launched(s, s.launches[call].run)
    ensures Moves(s, LaunchStartedSegment(s, call, ok, classification))
  {
    hide EndLaunch;
    if !ok {
      FinishFailedMoves(s, call, classification);
      hide *;
      assert LaunchStartedSegment(s, call, ok, classification)
          == EndLaunch(FinishFailed(s, s.launches[call].run, classification), call, s.launches[call].run in s.rows) by { FailedLaunchIs(s, call, classification); }
    } else {
      hide FinishFailed;
    }
  }

  lemma FailedLaunchIs(s: State, call: Call, classification: Option<Classification>)
    requires call in s.launches
    ensures LaunchStartedSegment(s, call, false, classification)
         == EndLaunch(FinishFailed(s, s.launches[call].run, classification), call, s.launches[call].run in s.rows)
  {
  }

  lemma LaunchRunningMoves(s: State, call: Call)
    requires call in s.launches && Launched(s, s.launches[call].run)
    requires !s.rows[s.launches[call].run].status.Terminal()
    ensures Moves(s, LaunchIdentifiedSegment(s, call))
  {
  }

  lemma LaunchIdentifiedMoves(s: State, call: Call)
    requires call in s.launches && Launched(s, s.launches[call].run)
    ensures Moves(s, LaunchIdentifiedSegment(s, call))
  {
    if !s.rows[s.launches[call].run].status.Terminal() {
      LaunchRunningMoves(s, call);
    }
    hide EndLaunch;
  }

  lemma LaunchStoppedMoves(s: State, call: Call)
    requires call in s.launches
    ensures Moves(s, EndLaunch(s, call, true))
  {
  }

  lemma ExitedMoves(s: State, r: RunId, cleanExit: bool, classification: Option<Classification>)
    ensures Moves(s, ExitedSegment(s, r, cleanExit, classification))
  {
    var s' := ExitedSegment(s, r, cleanExit, classification);
    if r in s.activeAdapters {
      var x := s'.settlements[|s.settlements|];
      SettlingIsQuiet(s.rows, r, x.status, x.classification);
    }
    assert QuietRows(s.rows, s.rows);
    hide SettleRow, QuietRows, Moves;
    MovesBy(s, s');
  }

  lemma CancelQueuedMoves(s: State, r: RunId)
    ensures Moves(s, CancelQueued(s, r))
  {
  }

  lemma CancelMoves(s: State, call: Call, r: RunId)
    ensures Moves(s, CancelSegment(s, call, r))
  {
    if r in s.rows && s.rows[r].status.Queued? {
      CancelQueuedMoves(s, r);
      hide CancelQueued, Moves;
    } else if r !in s.rows || s.rows[r].status.Terminal() {
      hide CancelQueued;
    } else if r in s.activeAdapters {
      hide CancelQueued;
    } else {
      hide CancelQueued;
    }
  }

  lemma CancelReturnedMoves(s: State, call: Call, ok: bool)
    requires call in s.cancels
    ensures Moves(s, CancelReturnedSegment(s, call, ok))
  {
    var r := s.cancels[call];
    if ok && !(r in s.rows && s.rows[r].status.Terminal()) { } else { hide Settle; }
  }

  lemma AdapterlessMoves(s: State, r: RunId)
    ensures Moves(s, AdapterlessSegment(s, r))
  {
  }

  lemma SettleFailedStopMoves(s: State, r: RunId, classification: Classification)
    ensures Moves(s, SettleFailedStop(s, r, classification))
  {
  }

  lemma FailStopMoves(s: State, r: RunId, classification: Classification, processManager: bool)
    ensures Moves(s, FailStopSegment(s, r, classification, processManager))
  {
    if r !in s.failStops && r in s.rows && s.rows[r].status.Queued? {
      SettleFailedStopMoves(s.(pendingRuns := s.pendingRuns - {r}), r, classification);
      hide SettleFailedStop;
    } else if r in s.failStops || r !in s.rows || s.rows[r].status.Terminal() {
      hide SettleFailedStop;
    } else {
      hide SettleFailedStop;
    }
  }

  lemma FailStopStoppedMoves(s: State, r: RunId, outcome: StopOutcome)
    requires r in s.failStops
    ensures Moves(s, FailStopStoppedSegment(s, r, outcome))
  {
    SettleFailedStopMoves(s.(failStops := s.failStops - {r}), r, s.failStops[r].classification);
    hide SettleFailedStop;
  }

  lemma FailStopProbedMoves(s: State, r: RunId, alive: bool)
    requires r in s.failStops
    ensures Moves(s, FailStopProbedSegment(s, r, alive))
  {
    SettleFailedStopMoves(s.(failStops := s.failStops - {r}), r, s.failStops[r].classification);
    hide SettleFailedStop;
  }

  lemma OtherSegmentMoves(env: Env, s: State, l: Label)
    requires Enabled(s, l) && LaunchInv(s)
    requires !l.Start? && !l.Resume? && !l.ResumeReturned? && !l.PassListed? && !l.PassJudged?
    ensures Moves(s, Apply(env, s, l))
  {
    match l
    case LaunchStarted(call, ok, classification) =>
      assert Launched(s, s.launches[call].run);
      LaunchStartedMoves(s, call, ok, classification);
    case LaunchIdentified(call) =>
      assert Launched(s, s.launches[call].run);
      LaunchIdentifiedMoves(s, call);
    case LaunchStopped(call) => LaunchStoppedMoves(s, call);
    case Exited(r, cleanExit, classification) => ExitedMoves(s, r, cleanExit, classification);
    case Cancel(call, r) => CancelMoves(s, call, r);
    case CancelReturned(call, ok) => CancelReturnedMoves(s, call, ok);
    case AdapterlessReturned(r) => AdapterlessMoves(s, r);
    case FailAndStop(r, intent, processManager) => FailStopMoves(s, r, intent, processManager);
    case FailStopStopped(r, outcome) => FailStopStoppedMoves(s, r, outcome);
    case FailStopProbed(r, alive) => FailStopProbedMoves(s, r, alive);
    case PassListFailed =>
  }

  lemma ResumeSegmentKeepsAdmission(env: Env, s: State, call: Call, r: RunId)
    requires env.Valid() && AdmissionInv(env, s) && call !in s.launches
    ensures AdmissionInv(env, ResumeSegment(env, s, call, r))
  {
    hide ResumeCommit, AdmissionInv;
    if r in s.rows && s.rows[r].status.Interrupted? && s.rows[r].spec.accountProfileId.None? {
      ResumeKeepsAdmission(env, s, call, r);
    } else {
      MovesKeepAdmission(env, s, ResumeSegment(env, s, call, r));
    }
  }

  lemma ResumeReturnedKeepsAdmission(env: Env, s: State, call: Call, profileOk: bool)
    requires env.Valid() && AdmissionInv(env, s) && call in s.resumes && call !in s.launches
    requires profileOk && s.resumes[call] in s.rows ==> s.rows[s.resumes[call]].status.Interrupted?
    ensures AdmissionInv(env, Apply(env, s, ResumeReturned(call, profileOk)))
  {
    hide ResumeCommit, AdmissionInv;
    var s1 := s.(resumes := s.resumes - {call});
    MovesKeepAdmission(env, s, s1);
    if profileOk { ResumeKeepsAdmission(env, s1, call, s.resumes[call]); }
  }

  /**
   * Every segment keeps the limits, the isolation rules and the covering
   * listing, provided a resume that returns from its profile lookup still finds
   * its row interrupted.
   */
  lemma SegmentKeepsAdmission(env: Env, s: State, l: Label)
    requires env.Valid() && AdmissionInv(env, s) && Enabled(s, l) && ResumesInterrupted(s, l)
    ensures AdmissionInv(env, Apply(env, s, l))
  {
    match l
    case Start(call, r, spec, initialized) => StartKeepsAdmission(env, s, call, r, spec, initialized);
    case Resume(call, r) => ResumeSegmentKeepsAdmission(env, s, call, r);
    case ResumeReturned(call, profileOk) => ResumeReturnedKeepsAdmission(env, s, call, profileOk);
    case PassListed(order) => ListingKeepsAdmission(env, s, order);
    case PassJudged(call, limitRead) => JudgingKeepsAdmission(env, s, call, limitRead);
    case _ =>
      OtherSegmentMoves(env, s, l);
      MovesKeepAdmission(env, s, Apply(env, s, l));
  }

  lemma InitialAdmission(env: Env, s: State)
    requires Initial(env, s)
    ensures AdmissionInv(env, s)
  {
  }

  /**
   * Admission safety over whole runs: after any interleaving of starts, resumes,
   * queue passes, launches, cancels, exits and fail-and-stops, the runs holding
   * a slot respect every limit, no worktree hosts two of them and no workspace
   * has two unisolated writers.
   */
  lemma {:induction false} LimitsHoldInEveryRun(env: Env, s: State, trace: seq<Label>)
    requires env.Valid() && AdmissionInv(env, s)
    requires IsRun(env, s, trace) && Always(env, s, trace, ResumesInterrupted)
    ensures AdmissionInv(env, After(env, s, trace))
    ensures Safe(env, Live(After(env, s, trace)))
    decreases |trace|
  {
    if trace != [] {
      SegmentKeepsAdmission(env, s, trace[0]);
      LimitsHoldInEveryRun(env, Apply(env, s, trace[0]), trace[1..]);
    }
  }
}
