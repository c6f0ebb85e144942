/**
 * Where the code does not meet the settle-once and limit promises: executions
 * that break them, each prevented by the condition named in the lemmas of
 * AdmissionSafety and RunSettlement.
 */
module RunFindings {
  import opened Common
  import opened RunAdmission
  import opened RunLifecycle
  import opened AdmissionSafety
  import opened RunSettlement

  lemma Prepend(env: Env, s: State, l: Label, rest: seq<Label>)
    requires Enabled(s, l) && IsRun(env, Apply(env, s, l), rest)
    ensures IsRun(env, s, [l] + rest)
    ensures After(env, s, [l] + rest) == After(env, Apply(env, s, l), rest)
  {
    assert ([l] + rest)[1..] == rest;
  }

  /**
   * A queued run cancelled while the queue pass waits for its profile limit is
   * launched all the same, and the exit of its process settles it a second time:
   * the row says completed after the user was told it was cancelled.
   */
  lemma CancelledCandidateIsLaunched(env: Env, s: State, call: Call)
    requires s.pass.Judging? && s.pass.candidate in s.pass.listed && call !in s.launches && call !in s.cancels
    requires StillWaiting(s.rows, s.pass.listed, s.pass.candidate) && s.pass.candidate !in s.failStopIntents
    requires s.pass.candidate !in s.cancelRequested
    requires SkipReason(env, RunningForLimits(s.pass.listed), s.pass.candidate, s.pass.listed[s.pass.candidate].spec).None?
    ensures var c := s.pass.candidate;
      var trace := [Cancel(call, c), PassJudged(call, true), Exited(c, true, None)];
      && IsRun(env, s, trace)
      && (var end := After(env, s, trace);
          && end.settlements == s.settlements + [Settlement(c, Cancelled, None), Settlement(c, Completed, None)]
          && c in end.rows && end.rows[c].status == Completed)
  {
    var c := s.pass.candidate;
    var l1, l2, l3 := Cancel(call, c), PassJudged(call, true), Exited(c, true, None);
    CancelWhileJudged(env, s, call);
    var s1 := CancelSegment(s, call, c);
    PromoteSettled(env, s1, call);
    var s2 := PassJudgedSegment(env, s1, call, true);
    ExitOfBound(s2, c);
    hide SkipReason, CancelSegment, PassJudgedSegment, ExitedSegment;
    Prepend(env, s2, l3, []);
    Prepend(env, s1, l2, [l3]);
    Prepend(env, s, l1, [l2, l3]);
    assert [l1] + [l2, l3] == [l1, l2, l3] && [l2] + [l3] == [l2, l3] && [l3] + [] == [l3];
  }

  lemma CancelWhileJudged(env: Env, s: State, call: Call)
    requires s.pass.Judging? && StillWaiting(s.rows, s.pass.listed, s.pass.candidate)
    ensures var c := s.pass.candidate; var s1 := CancelSegment(s, call, c);
      && s1.pass == s.pass && s1.launches == s.launches
      && c in s1.rows && s1.rows[c].status == Cancelled
      && s1.settlements == s.settlements + [Settlement(c, Cancelled, None)]
      && s1.cancelRequested == s.cancelRequested && s1.failStopIntents == s.failStopIntents
  {
  }

  lemma PromoteSettled(env: Env, s: State, call: Call)
    requires s.pass.Judging? && s.pass.candidate in s.pass.listed && SettledRow(s, s.pass.candidate)
    requires SkipReason(env, RunningForLimits(s.pass.listed), s.pass.candidate, s.pass.listed[s.pass.candidate].spec).None?
    ensures var s1 := PassJudgedSegment(env, s, call, true);
      && s1.rows == s.rows && s1.settlements == s.settlements
      && s.pass.candidate in s1.activeAdapters
      && s1.cancelRequested == s.cancelRequested && s1.failStopIntents == s.failStopIntents
  {
    hide SkipReason;
  }

  lemma ExitOfBound(s: State, r: RunId)
    requires r in s.activeAdapters && r !in s.cancelRequested && r !in s.failStopIntents && r in s.rows
    ensures var s1 := ExitedSegment(s, r, true, None);
      && r in s1.rows && s1.rows[r].status == Completed
      && s1.settlements == s.settlements + [Settlement(r, Completed, None)]
  {
  }

  /**
   * The reason written for a skipped candidate is written even when the row has
   * left the queue since the listing, although leaving the queue clears it.
   */
  lemma SkippedReasonAfterCancel(env: Env, s: State, call: Call)
    requires s.pass.Judging? && s.pass.candidate in s.pass.listed && call !in s.launches && call !in s.cancels
    requires StillWaiting(s.rows, s.pass.listed, s.pass.candidate)
    requires var skip := SkipReason(env, RunningForLimits(s.pass.listed), s.pass.candidate, s.pass.listed[s.pass.candidate].spec);
      skip.Some? && skip != s.pass.listed[s.pass.candidate].queuedReason
    ensures var c := s.pass.candidate;
      var trace := [Cancel(call, c), PassJudged(call, true)];
      && IsRun(env, s, trace)
      && (var end := After(env, s, trace);
          c in end.rows && end.rows[c].status == Cancelled && end.rows[c].queuedReason.Some?)
  {
    var c := s.pass.candidate;
    var l1, l2 := Cancel(call, c), PassJudged(call, true);
    var s1 := Apply(env, s, l1);
    CancelWhileJudged(env, s, call);
    hide CancelSegment;
    assert s1 == CancelSegment(s, call, c);
    var skip := SkipReason(env, RunningForLimits(s.pass.listed), c, s.pass.listed[c].spec);
    NextCandidateStays(UpdateQueuedReason(s1, c, s.pass.listed[c].queuedReason, skip.value), s.pass.listed, s.pass.rest);
    hide SkipReason, NextCandidate;
    Prepend(env, s1, l2, []);
    Prepend(env, s, l1, [l2]);
    assert [l1] + [l2] == [l1, l2] && [l2] + [] == [l2];
  }

  /** A launch that fails after its run was cancelled rewrites the cancelled row as failed. */
  lemma FailedStartOverwritesCancel(env: Env, s: State, launch: Call, cancel: Call)
    requires launch in s.launches && s.launches[launch].stage.Starting? && cancel !in s.cancels
    requires var r := s.launches[launch].run;
      r in s.rows && s.rows[r].status.Live() && r in s.activeAdapters
    ensures var r := s.launches[launch].run;
      var trace := [Cancel(cancel, r), CancelReturned(cancel, true), LaunchStarted(launch, false, None)];
      && IsRun(env, s, trace)
      && (var end := After(env, s, trace);
          && end.settlements == s.settlements + [Settlement(r, Cancelled, None), Settlement(r, Failed, None)]
          && r in end.rows && end.rows[r].status == Failed)
  {
    var r := s.launches[launch].run;
    var l1, l2, l3 := Cancel(cancel, r), CancelReturned(cancel, true), LaunchStarted(launch, false, None);
    BeginCancel(s, cancel, r);
    var s1 := CancelSegment(s, cancel, r);
    CancelFallback(s1, cancel);
    var s2 := CancelReturnedSegment(s1, cancel, true);
    FailedLaunch(s2, launch);
    hide CancelSegment, CancelReturnedSegment, LaunchStartedSegment;
    Prepend(env, s2, l3, []);
    Prepend(env, s1, l2, [l3]);
    Prepend(env, s, l1, [l2, l3]);
    assert [l1] + [l2, l3] == [l1, l2, l3] && [l2] + [l3] == [l2, l3] && [l3] + [] == [l3];
  }

  lemma BeginCancel(s: State, call: Call, r: RunId)
    requires r in s.rows && s.rows[r].status.Live() && r in s.activeAdapters
    ensures var s1 := CancelSegment(s, call, r);
      s1.rows == s.rows && s1.launches == s.launches && s1.cancels == s.cancels[call := r] && s1.settlements == s.settlements
  {
  }

  lemma CancelFallback(s: State, call: Call)
    requires call in s.cancels && s.cancels[call] in s.rows && s.rows[s.cancels[call]].status.Live()
    ensures var r := s.cancels[call]; var s1 := CancelReturnedSegment(s, call, true);
      && r in s1.rows && s1.rows[r].status == Cancelled && s1.launches == s.launches
      && s1.settlements == s.settlements + [Settlement(r, Cancelled, None)]
  {
    hide Wake;
    assert !s.rows[s.cancels[call]].status.Terminal();
  }

  lemma FailedLaunch(s: State, call: Call)
    requires call in s.launches && s.launches[call].run in s.rows
    ensures var r := s.launches[call].run; var s1 := LaunchStartedSegment(s, call, false, None);
      && r in s1.rows && s1.rows[r].status == Failed
      && s1.settlements == s.settlements + [Settlement(r, Failed, None)]
  {
  }

  // ---- overlapping resumes ----

  /**
   * One slot for all runs; a run `r` with an account profile that was
   * interrupted, and two read-only newcomers `a` and `n` without one.
   */
  datatype Setup = Setup(env: Env, r: RunId, a: RunId, n: RunId, resumed: Spec, other: Spec) {
    ghost predicate Valid() {
      && r != a && r != n && a != n
      && (forall w :: env.policy(w) == Concurrency(1, 1, 1))
      && (forall p :: env.profileLimit(p).None?)
      && env.globalCeiling == 1 && env.agentCeiling == 1
      && resumed.worktreeId.None? && resumed.approvalMode == Some(ReadOnly) && resumed.accountProfileId.Some?
      && other.worktreeId.None? && other.approvalMode == Some(ReadOnly) && other.accountProfileId.None?
    }

    function Before(): State {
      State(map[r := Row(resumed, Interrupted)],
        {}, {}, {}, map[], {}, map[], map[], map[], {}, map[], Idle, false, 0, 0, [])
    }

    // The run is resumed twice at once; the first resume queues it behind `a`.
    function Overlap(): seq<Label> {
      [Resume(0, r), Resume(1, r), Start(2, a, other, true), ResumeReturned(0, true), Exited(a, true, None)]
    }

    // It is cancelled while it is judged, `n` takes the slot, the second resume returns.
    function Overtake(): seq<Label> {
      [PassListed([r]), Cancel(3, r), Start(4, n, other, true), ResumeReturned(1, true), PassJudged(5, true)]
    }

    function Waiting(): Run { Run(resumed, Queued, Some(Capacity), false, None) }
  }

  function Row(spec: Spec, status: Status): Run { Run(spec, status, None, false, None) }

  lemma FullOrEmpty(u: Setup, runs: Runs, spec: Spec)
    requires u.Valid() && (spec == u.resumed || spec == u.other)
    ensures var capacity := HasCapacity(runs, spec, u.env.policy(spec.workspaceId), u.env.LimitFor(spec.accountProfileId));
      (runs == map[] ==> capacity) && (|runs| >= 1 ==> !capacity)
    ensures !UnisolatedWriteConflict(runs, spec)
    ensures forall exclude :: !WorktreeRunConflict(runs, spec.worktreeId, exclude)
  {
    if runs == map[] {
      assert InWorkspace(runs, spec.workspaceId) == {} && OfAgent(runs, spec.agentType) == {};
    }
  }

  lemma StartWhenFree(u: Setup, s: State, call: Call, q: RunId)
    requires u.Valid() && q !in s.rows && Live(s).Keys == {} && !AnyQueued(ListActive(s.rows))
    ensures StartSegment(u.env, s, call, q, u.other, true)
         == BeginLaunch(s.(rows := s.rows[q := Row(u.other, Preparing)]), q, call, ByStart)
  {
    FullOrEmpty(u, Live(s), u.other);
    hide HasCapacity, UnisolatedWriteConflict, WorktreeRunConflict, AnyQueued, BeginLaunch;
  }

  lemma ResumeWhenFull(u: Setup, s: State, call: Call)
    requires u.Valid() && u.r in s.rows && s.rows[u.r].spec == u.resumed
    requires |Live(s)| >= 1 && !AnyQueued(ListActive(s.rows))
    ensures ResumeCommit(u.env, s, call, u.r)
         == Wake(s.(rows := s.rows[u.r := u.Waiting()], pendingRuns := s.pendingRuns + {u.r}))
  {
    FullOrEmpty(u, Live(s), u.resumed);
    hide HasCapacity, UnisolatedWriteConflict, WorktreeRunConflict, AnyQueued, Wake;
  }

  // A step from one named state to another.
  ghost predicate Step(env: Env, s: State, l: Label, s': State) {
    Enabled(s, l) && s' == Apply(env, s, l)
  }

  lemma FiveSteps(env: Env, s0: State, s1: State, s2: State, s3: State, s4: State, s5: State,
                  l0: Label, l1: Label, l2: Label, l3: Label, l4: Label)
    requires Step(env, s0, l0, s1) && Step(env, s1, l1, s2) && Step(env, s2, l2, s3)
    requires Step(env, s3, l3, s4) && Step(env, s4, l4, s5)
    ensures IsRun(env, s0, [l0, l1, l2, l3, l4]) && After(env, s0, [l0, l1, l2, l3, l4]) == s5
  {
    hide Enabled, Apply;
    Prepend(env, s4, l4, []);
    Prepend(env, s3, l3, [l4]);
    Prepend(env, s2, l2, [l3, l4]);
    Prepend(env, s1, l1, [l2, l3, l4]);
    Prepend(env, s0, l0, [l1, l2, l3, l4]);
    assert [l4] + [] == [l4];
    assert [l3] + [l4] == [l3, l4];
    assert [l2] + [l3, l4] == [l2, l3, l4];
    assert [l1] + [l2, l3, l4] == [l1, l2, l3, l4];
    assert [l0] + [l1, l2, l3, l4] == [l0, l1, l2, l3, l4];
  }

  lemma {:induction false} RunsConcatenate(env: Env, s: State, a: seq<Label>, b: seq<Label>)
    requires IsRun(env, s, a) && IsRun(env, After(env, s, a), b)
    ensures IsRun(env, s, a + b) && After(env, s, a + b) == After(env, After(env, s, a), b)
    decreases |a|
  {
    if a == [] {
      assert a + b == b;
    } else {
      RunsConcatenate(env, Apply(env, s, a[0]), a[1..], b);
      assert (a + b)[1..] == a[1..] + b;
    }
  }

  // What matters of a state on the way.
  ghost predicate At(s: State, rows: Runs, resumes: map<Call, RunId>, launches: set<Call>, pass: Pass) {
    && s.rows == rows && s.resumes == resumes && s.launches.Keys == launches && s.pass == pass
    && s.cancels == map[] && s.failStopIntents == map[] && s.cancelRequested == {}
  }

  lemma StartStep(env: Env, s: State, call: Call, r: RunId, spec: Spec)
    requires call !in s.launches
    ensures Step(env, s, Start(call, r, spec, true), StartSegment(env, s, call, r, spec, true))
  {
    hide StartSegment;
  }

  lemma ResumeReturnedStep(env: Env, s: State, call: Call)
    requires call in s.resumes && call !in s.launches
    ensures Step(env, s, ResumeReturned(call, true), ResumeCommit(env, s.(resumes := s.resumes - {call}), call, s.resumes[call]))
  {
    hide ResumeCommit;
  }

  lemma PassJudgedStep(env: Env, s: State, call: Call)
    requires s.pass.Judging? && s.pass.candidate in s.pass.listed && call !in s.launches
    ensures Step(env, s, PassJudged(call, true), PassJudgedSegment(env, s, call, true))
  {
    hide PassJudgedSegment;
  }

  // All rows but that of the holder are terminal.
  lemma SlotHolders(rows: Runs, holder: set<RunId>)
    requires forall q | q in rows :: q in holder || rows[q].status.Terminal()
    requires forall q | q in holder :: q in rows && rows[q].status.Preparing?
    ensures !AnyQueued(ListActive(rows))
    ensures RunningForLimits(ListActive(rows)).Keys == holder
  {
  }

  lemma Suspended(u: Setup, s0: State, s1: State, s2: State)
    requires u.Valid() && s0 == u.Before()
    requires s1 == s0.(resumes := map[0 := u.r]) && s2 == s0.(resumes := map[0 := u.r, 1 := u.r])
    ensures Step(u.env, s0, Resume(0, u.r), s1) && Step(u.env, s1, Resume(1, u.r), s2)
  {
    hide ResumeCommit;
  }

  lemma StartsAlone(u: Setup, s: State, call: Call, q: RunId)
    requires u.Valid() && q !in s.rows && (forall p | p in s.rows :: s.rows[p].status.Terminal())
    ensures StartSegment(u.env, s, call, q, u.other, true)
         == BeginLaunch(s.(rows := s.rows[q := Row(u.other, Preparing)]), q, call, ByStart)
  {
    SlotHolders(s.rows, {});
    LiveIs(s);
    hide AnyQueued, Live, ListActive, RunningForLimits, Setup.Valid, StartSegment, BeginLaunch;
    StartWhenFree(u, s, call, q);
  }

  lemma SlotTaken(u: Setup, s2: State, s3: State)
    requires u.Valid() && s2 == u.Before().(resumes := map[0 := u.r, 1 := u.r])
    requires s3 == StartSegment(u.env, s2, 2, u.a, u.other, true)
    ensures Step(u.env, s2, Start(2, u.a, u.other, true), s3)
    ensures At(s3, map[u.r := Row(u.resumed, Interrupted), u.a := Row(u.other, Preparing)], map[0 := u.r, 1 := u.r], {2}, Idle)
    ensures s3.activeAdapters == {u.a} && s3.pendingRuns == {}
  {
    assert Live(s2) == map[] && !AnyQueued(ListActive(s2.rows));
    StartWhenFree(u, s2, 2, u.a);
    hide StartSegment;
  }

  // The resumed run waits because `q` holds the slot.
  lemma QueuesBehind(u: Setup, s: State, call: Call, q: RunId)
    requires u.Valid() && u.r in s.rows && s.rows[u.r].spec == u.resumed
    requires q in s.rows && s.rows[q].status.Preparing?
    requires forall p | p in s.rows && p != q :: s.rows[p].status.Terminal()
    ensures ResumeCommit(u.env, s, call, u.r)
         == Wake(s.(rows := s.rows[u.r := u.Waiting()], pendingRuns := s.pendingRuns + {u.r}))
  {
    SlotHolders(s.rows, {q});
    LiveIs(s);
    hide ResumeCommit, AnyQueued, ListActive, RunningForLimits, Setup.Valid, Live;
    assert |Live(s).Keys| == 1;
    ResumeWhenFull(u, s, call);
  }

  lemma FirstResumeQueues(u: Setup, s3: State, s4: State)
    requires u.Valid()
    requires At(s3, map[u.r := Row(u.resumed, Interrupted), u.a := Row(u.other, Preparing)], map[0 := u.r, 1 := u.r], {2}, Idle)
    requires s4 == Wake(s3.(rows := map[u.r := u.Waiting(), u.a := Row(u.other, Preparing)], resumes := map[1 := u.r],
                            pendingRuns := s3.pendingRuns + {u.r}))
    ensures Step(u.env, s3, ResumeReturned(0, true), s4)
  {
    var s := s3.(resumes := map[1 := u.r]);
    assert s3.resumes - {0} == map[1 := u.r];
    assert s.rows[u.r := u.Waiting()] == s4.rows;
    assert 0 in s3.resumes && 0 !in s3.launches;
    QueuesBehind(u, s, 0, u.a);
    hide Wake, At;
    ResumeReturnedStep(u.env, s3, 0);
  }

  lemma SlotFreed(u: Setup, s4: State, s5: State)
    requires u.Valid() && u.a in s4.activeAdapters
    requires At(s4, map[u.r := u.Waiting(), u.a := Row(u.other, Preparing)], map[1 := u.r], {2}, Listing)
    requires s5 == ExitedSegment(s4, u.a, true, None)
    ensures Step(u.env, s4, Exited(u.a, true, None), s5)
    ensures At(s5, map[u.r := u.Waiting(), u.a := Row(u.other, Completed)], map[1 := u.r], {2}, Listing)
    ensures s5.pendingRuns == s4.pendingRuns
  {
    assert s4.rows[u.a := Row(u.other, Completed)] == s5.rows;
  }

  lemma FirstHalf(u: Setup) returns (s: State)
    requires u.Valid()
    ensures IsRun(u.env, u.Before(), u.Overlap()) && s == After(u.env, u.Before(), u.Overlap())
    ensures At(s, map[u.r := u.Waiting(), u.a := Row(u.other, Completed)], map[1 := u.r], {2}, Listing)
    ensures u.r in s.pendingRuns
  {
    var s0 := u.Before();
    var s1 := s0.(resumes := map[0 := u.r]);
    var s2 := s0.(resumes := map[0 := u.r, 1 := u.r]);
    var s3 := StartSegment(u.env, s2, 2, u.a, u.other, true);
    var s4 := Wake(s3.(rows := map[u.r := u.Waiting(), u.a := Row(u.other, Preparing)], resumes := map[1 := u.r],
                       pendingRuns := s3.pendingRuns + {u.r}));
    s := ExitedSegment(s4, u.a, true, None);
    hide StartSegment, ExitedSegment, Step;
    Suspended(u, s0, s1, s2);
    SlotTaken(u, s2, s3);
    FirstResumeQueues(u, s3, s4);
    SlotFreed(u, s4, s);
    FiveSteps(u.env, s0, s1, s2, s3, s4, s,
      Resume(0, u.r), Resume(1, u.r), Start(2, u.a, u.other, true), ResumeReturned(0, true), Exited(u.a, true, None));
  }

  lemma Judged(u: Setup, s: State, s1: State)
    requires u.Valid() && u.r in s.pendingRuns
    requires At(s, map[u.r := u.Waiting(), u.a := Row(u.other, Completed)], map[1 := u.r], {2}, Listing)
    requires s1 == s.(wakeUpsAtListing := s.wakeUps, pass := Judging(map[u.r := u.Waiting()], u.r, []))
    ensures Step(u.env, s, PassListed([u.r]), s1)
  {
    assert ListActive(s.rows) == map[u.r := u.Waiting()];
    assert [u.r][1..] == [];
    assert Enumerates([u.r], s.rows);
  }

  // `r` is cancelled but still judged, in a state with the given slot holder.
  ghost predicate Overtaken(u: Setup, s: State, holder: set<RunId>, launches: set<Call>) {
    && u.r in s.rows && s.rows[u.r].spec == u.resumed && s.rows[u.r].status == Cancelled
    && s.rows.Keys == {u.r, u.a} + holder && u.a in s.rows && s.rows[u.a].status == Completed
    && (forall q | q in holder :: q in s.rows && s.rows[q] == Row(u.other, Preparing))
    && s.pass == Judging(map[u.r := u.Waiting()], u.r, []) && s.launches.Keys == launches && s.resumes == map[1 := u.r]
  }

  lemma CancelledWhileJudged(u: Setup, s1: State, s2: State)
    requires u.Valid() && At(s1, map[u.r := u.Waiting(), u.a := Row(u.other, Completed)], map[1 := u.r], {2}, s1.pass)
    requires s1.pass == Judging(map[u.r := u.Waiting()], u.r, []) && s2 == CancelSegment(s1, 3, u.r)
    ensures Step(u.env, s1, Cancel(3, u.r), s2)
    ensures Overtaken(u, s2, {}, {2})
  {
  }

  lemma HoldsTheSlot(u: Setup, s2: State)
    requires u.r != u.n && u.a != u.n && Overtaken(u, s2, {}, {2})
    ensures Overtaken(u, BeginLaunch(s2.(rows := s2.rows[u.n := Row(u.other, Preparing)]), u.n, 4, ByStart), {u.n}, {2, 4})
  {
  }

  lemma SlotTakenAgain(u: Setup, s2: State, s3: State)
    requires u.Valid() && Overtaken(u, s2, {}, {2}) && s3 == StartSegment(u.env, s2, 4, u.n, u.other, true)
    ensures Step(u.env, s2, Start(4, u.n, u.other, true), s3)
    ensures Overtaken(u, s3, {u.n}, {2, 4})
  {
    hide Step, StartSegment, BeginLaunch;
    StartsAlone(u, s2, 4, u.n);
    StartStep(u.env, s2, 4, u.n, u.other);
    HoldsTheSlot(u, s2);
  }

  lemma SecondResumeQueues(u: Setup, s3: State, s4: State)
    requires u.Valid() && Overtaken(u, s3, {u.n}, {2, 4})
    requires s4 == Wake(s3.(rows := s3.rows[u.r := u.Waiting()], resumes := map[], pendingRuns := s3.pendingRuns + {u.r}))
    ensures Step(u.env, s3, ResumeReturned(1, true), s4)
  {
    var s := s3.(resumes := map[]);
    assert s3.resumes - {1} == map[];
    QueuesBehind(u, s, 1, u.n);
    hide Wake;
    ResumeReturnedStep(u.env, s3, 1);
  }

  lemma AdmittedAlone(u: Setup)
    requires u.Valid()
    ensures SkipReason(u.env, RunningForLimits(map[u.r := u.Waiting()]), u.r, u.resumed).None?
  {
    FullOrEmpty(u, map[], u.resumed);
    assert RunningForLimits(map[u.r := u.Waiting()]) == map[];
    hide HasCapacity, UnisolatedWriteConflict, WorktreeRunConflict;
  }

  lemma PromotedOverTheLimit(u: Setup, s4: State, s5: State)
    requires u.Valid() && s4.pass == Judging(map[u.r := u.Waiting()], u.r, []) && 5 !in s4.launches
    requires u.r in s4.rows && s4.rows[u.r] == u.Waiting() && u.n in s4.rows && s4.rows[u.n].status.Live()
    requires s5 == PassJudgedSegment(u.env, s4, 5, true)
    ensures Step(u.env, s4, PassJudged(5, true), s5)
    ensures u.r in Live(s5) && u.n in Live(s5)
  {
    PassJudgedStep(u.env, s4, 5);
    hide Step;
    AdmittedAlone(u);
    hide SkipReason;
    PromotionShape(u.env, s4, 5);
    hide PassJudgedSegment;
  }

  // The listing is taken, `r` cancelled and `n` started.
  lemma Overtaking(u: Setup, s: State) returns (s3: State)
    requires u.Valid() && u.r in s.pendingRuns
    requires At(s, map[u.r := u.Waiting(), u.a := Row(u.other, Completed)], map[1 := u.r], {2}, Listing)
    ensures var trace := [PassListed([u.r]), Cancel(3, u.r), Start(4, u.n, u.other, true)];
      IsRun(u.env, s, trace) && s3 == After(u.env, s, trace)
    ensures Overtaken(u, s3, {u.n}, {2, 4})
  {
    var s1 := s.(wakeUpsAtListing := s.wakeUps, pass := Judging(map[u.r := u.Waiting()], u.r, []));
    var s2 := CancelSegment(s1, 3, u.r);
    s3 := StartSegment(u.env, s2, 4, u.n, u.other, true);
    Judged(u, s, s1);
    hide CancelSegment, StartSegment, Step, Setup.Valid;
    CancelledWhileJudged(u, s1, s2);
    SlotTakenAgain(u, s2, s3);
    hide *;
    ThreeSteps(u.env, s, s1, s2, s3, PassListed([u.r]), Cancel(3, u.r), Start(4, u.n, u.other, true));
  }

  lemma ThreeSteps(env: Env, s0: State, s1: State, s2: State, s3: State, l0: Label, l1: Label, l2: Label)
    requires Step(env, s0, l0, s1) && Step(env, s1, l1, s2) && Step(env, s2, l2, s3)
    ensures IsRun(env, s0, [l0, l1, l2]) && After(env, s0, [l0, l1, l2]) == s3
  {
    hide Enabled, Apply;
    Prepend(env, s2, l2, []);
    Prepend(env, s1, l1, [l2]);
    Prepend(env, s0, l0, [l1, l2]);
    assert [l2] + [] == [l2];
    assert [l1] + [l2] == [l1, l2];
    assert [l0] + [l1, l2] == [l0, l1, l2];
  }

  lemma TwoSteps(env: Env, s0: State, s1: State, s2: State, l0: Label, l1: Label)
    requires Step(env, s0, l0, s1) && Step(env, s1, l1, s2)
    ensures IsRun(env, s0, [l0, l1]) && After(env, s0, [l0, l1]) == s2
  {
    hide Enabled, Apply;
    Prepend(env, s1, l1, []);
    Prepend(env, s0, l0, [l1]);
    assert [l1] + [] == [l1];
    assert [l0] + [l1] == [l0, l1];
  }

  lemma Overtook(u: Setup, s3: State)
    requires u.Valid() && Overtaken(u, s3, {u.n}, {2, 4})
    ensures var trace := [ResumeReturned(1, true), PassJudged(5, true)];
      IsRun(u.env, s3, trace) && u.r in Live(After(u.env, s3, trace)) && u.n in Live(After(u.env, s3, trace))
  {
    hide PassJudgedSegment, Step, Live, Setup.Valid;
    var s4 := Wake(s3.(rows := s3.rows[u.r := u.Waiting()], resumes := map[], pendingRuns := s3.pendingRuns + {u.r}));
    SecondResumeQueues(u, s3, s4);
    var s5 := PassJudgedSegment(u.env, s4, 5, true);
    PromotedOverTheLimit(u, s4, s5);
    hide *;
    TwoSteps(u.env, s3, s4, s5, ResumeReturned(1, true), PassJudged(5, true));
  }

  lemma SecondHalf(u: Setup, s: State)
    requires u.Valid() && u.r in s.pendingRuns
    requires At(s, map[u.r := u.Waiting(), u.a := Row(u.other, Completed)], map[1 := u.r], {2}, Listing)
    ensures IsRun(u.env, s, u.Overtake())
    ensures var live := Live(After(u.env, s, u.Overtake())); u.r in live && u.n in live
  {
    hide At, Live, Setup.Valid, IsRun, After, Overtaken;
    var s3 := Overtaking(u, s);
    Overtook(u, s3);
    RunsConcatenate(u.env, s, [PassListed([u.r]), Cancel(3, u.r), Start(4, u.n, u.other, true)], [ResumeReturned(1, true), PassJudged(5, true)]);
    assert u.Overtake() == [PassListed([u.r]), Cancel(3, u.r), Start(4, u.n, u.other, true)] + [ResumeReturned(1, true), PassJudged(5, true)];
  }

  lemma StartsSafe(u: Setup)
    requires u.Valid()
    ensures u.env.Valid() && Initial(u.env, u.Before())
  {
    var live := Live(u.Before());
    assert live == map[];
    forall w ensures InWorkspace(live, w) == {} { }
    forall g ensures OfAgent(live, g) == {} { }
  }

  /**
   * Two overlapping resumes of one run break a limit of one slot: the second one
   * queues the run again after it was cancelled and another run was admitted,
   * while the queue pass still decides on the listing taken before.
   */
  lemma OverlappingResumesBreakTheLimit(u: Setup)
    requires u.Valid()
    ensures u.env.Valid() && Initial(u.env, u.Before())
    ensures var trace := u.Overlap() + u.Overtake();
      && IsRun(u.env, u.Before(), trace)
      && !Safe(u.env, Live(After(u.env, u.Before(), trace)))
  {
    hide Apply, Enabled, Initial, Live, Setup.Before, Setup.Overlap, Setup.Overtake;
    StartsSafe(u);
    var s := FirstHalf(u);
    SecondHalf(u, s);
    RunsConcatenate(u.env, u.Before(), u.Overlap(), u.Overtake());
    SmallerSet({u.r, u.n}, Live(After(u.env, s, u.Overtake())).Keys);
  }
}
