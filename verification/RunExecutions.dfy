/**
 * Executions from a fresh process in which the code does not meet the settle-once
 * and queue-reason promises.  There is one slot for all runs.
 */
module RunExecutions {
  import opened Common
  import opened RunAdmission
  import opened RunLifecycle
  import opened AdmissionSafety
  import opened RunSettlement
  import opened RunReasons
  import opened RunFindings

  function Fresh(rows: Runs): State {
    State(rows, {}, {}, {}, map[], {}, map[], map[], map[], {}, map[], Idle, false, 0, 0, [])
  }

  function Waits(u: Setup, reason: QueuedReason): Run { Run(u.other, Queued, Some(reason), false, None) }

  // What matters of a state on the way: `a` is bound, nothing is being cancelled or stopped.
  ghost predicate Reached(u: Setup, s: State, rows: Runs, pending: set<RunId>, launches: set<Call>, pass: Pass) {
    && s.rows == rows && s.pendingRuns == pending && s.launches.Keys == launches && s.pass == pass
    && s.activeAdapters == {u.a} && s.cancels == map[] && s.failStopIntents == map[] && s.cancelRequested == {}
  }

  lemma FreshIsSafe(u: Setup, rows: Runs)
    requires u.Valid() && |rows| <= 1 && (forall r | r in rows :: rows[r].spec == u.other && !rows[r].status.Queued?)
    ensures u.env.Valid() && Initial(u.env, Fresh(rows))
  {
    var live := RunningForLimits(ListActive(rows));
    assert live.Keys <= rows.Keys && |rows| == |rows.Keys|;
    SmallerSet(live.Keys, rows.Keys);
    forall w ensures |InWorkspace(live, w)| <= 1 { SmallerSet(InWorkspace(live, w), live.Keys); }
    forall g ensures |OfAgent(live, g)| <= 1 { SmallerSet(OfAgent(live, g), live.Keys); }
    assert Isolated(live);
  }

  // ---- the first runs ----

  lemma FirstStarts(u: Setup, s1: State)
    requires u.Valid() && s1 == StartSegment(u.env, Fresh(map[]), 0, u.a, u.other, true)
    ensures Step(u.env, Fresh(map[]), Start(0, u.a, u.other, true), s1)
    ensures Reached(u, s1, map[u.a := Row(u.other, Preparing)], {}, {0}, Idle)
    ensures s1.settlements == [] && s1.launches[0].run == u.a && s1.launches[0].stage.Starting?
  {
    StartsAlone(u, Fresh(map[]), 0, u.a);
    hide StartSegment, Setup.Valid;
    assert map[][u.a := Row(u.other, Preparing)] == map[u.a := Row(u.other, Preparing)];
  }

  // A newcomer behind a run that holds the slot, or behind one that waits.
  lemma StartQueues(u: Setup, s: State, call: Call, q: RunId)
    requires u.Valid() && q !in s.rows && |Live(s)| >= 1
    ensures var reason := if AnyQueued(ListActive(s.rows)) then Fifo else Capacity;
      StartSegment(u.env, s, call, q, u.other, true)
      == Wake(s.(rows := s.rows[q := Waits(u, reason)], pendingRuns := s.pendingRuns + {q}))
  {
    FullOrEmpty(u, Live(s), u.other);
    hide HasCapacity, UnisolatedWriteConflict, WorktreeRunConflict, AnyQueued, Wake;
  }

  lemma HoldsOne(s: State, q: RunId)
    requires q in s.rows && s.rows[q].status.Live()
    ensures |Live(s)| >= 1
  {
    assert q in Live(s);
  }

  lemma SecondQueues(u: Setup, s1: State, s2: State)
    requires u.Valid() && Reached(u, s1, map[u.a := Row(u.other, Preparing)], {}, {0}, Idle)
    requires s2 == StartSegment(u.env, s1, 1, u.r, u.other, true)
    ensures Step(u.env, s1, Start(1, u.r, u.other, true), s2)
    ensures Reached(u, s2, map[u.a := Row(u.other, Preparing), u.r := Waits(u, Capacity)], {u.r}, {0}, Listing)
    ensures s2.settlements == s1.settlements
  {
    HoldsOne(s1, u.a);
    assert !AnyQueued(ListActive(s1.rows));
    StartQueues(u, s1, 1, u.r);
    hide StartSegment, Setup.Valid, Live, AnyQueued;
    assert s1.rows[u.r := Waits(u, Capacity)] == map[u.a := Row(u.other, Preparing), u.r := Waits(u, Capacity)];
  }

  // ---- a failing start ----

  /** A start that fails after its run was cancelled rewrites the cancelled row as failed. */
  lemma FailedStartAfterCancel(u: Setup)
    requires u.Valid()
    ensures u.env.Valid() && Initial(u.env, Fresh(map[]))
    ensures var trace := [Start(0, u.a, u.other, true), Cancel(0, u.a), CancelReturned(0, true), LaunchStarted(0, false, None)];
      && IsRun(u.env, Fresh(map[]), trace)
      && (var end := After(u.env, Fresh(map[]), trace);
          && end.settlements == [Settlement(u.a, Cancelled, None), Settlement(u.a, Failed, None)]
          && u.a in end.rows && end.rows[u.a].status == Failed)
  {
    FreshIsSafe(u, map[]);
    var s1 := StartSegment(u.env, Fresh(map[]), 0, u.a, u.other, true);
    FirstStarts(u, s1);
    FailedStartOverwritesCancel(u.env, s1, 0, 0);
    hide StartSegment, Setup.Valid, Initial, Enabled, Apply;
    var rest := [Cancel(0, u.a), CancelReturned(0, true), LaunchStarted(0, false, None)];
    Prepend(u.env, Fresh(map[]), Start(0, u.a, u.other, true), rest);
    assert [Start(0, u.a, u.other, true)] + rest
        == [Start(0, u.a, u.other, true), Cancel(0, u.a), CancelReturned(0, true), LaunchStarted(0, false, None)];
  }

  // ---- a candidate cancelled while it is judged ----

  lemma HolderExits(u: Setup, s2: State, s3: State)
    requires u.Valid() && Reached(u, s2, map[u.a := Row(u.other, Preparing), u.r := Waits(u, Capacity)], {u.r}, {0}, Listing)
    requires s3 == ExitedSegment(s2, u.a, true, None)
    ensures Step(u.env, s2, Exited(u.a, true, None), s3)
    ensures s3.rows == map[u.a := Row(u.other, Completed), u.r := Waits(u, Capacity)] && s3.pendingRuns == {u.r}
    ensures s3.launches.Keys == {0} && s3.pass == Listing && s3.cancels == map[] && s3.failStopIntents == map[] && s3.cancelRequested == {}
    ensures s3.settlements == s2.settlements + [Settlement(u.a, Completed, None)]
  {
    assert s2.rows[u.a := Row(u.other, Completed)] == s3.rows;
  }

  // The pass lists and waits for the limit of its one candidate.
  lemma OneIsJudged(u: Setup, s: State, q: RunId, s1: State)
    requires s.pass.Listing? && q in s.pendingRuns && q in s.rows && s.rows[q].status.Queued?
    requires forall p | p in s.rows && p != q :: !s.rows[p].status.Queued?
    requires s1 == s.(wakeUpsAtListing := s.wakeUps, pass := Judging(ListActive(s.rows), q, []))
    ensures Step(u.env, s, PassListed([q]), s1)
  {
    assert [q][1..] == [];
    assert Enumerates([q], s.rows);
  }

  lemma NoneAhead(u: Setup, listed: Runs, q: RunId)
    requires u.Valid() && q in listed && (forall p | p in listed :: listed[p].status.Queued?)
    ensures SkipReason(u.env, RunningForLimits(listed), q, u.other).None?
  {
    assert RunningForLimits(listed) == map[];
    FullOrEmpty(u, map[], u.other);
    hide HasCapacity, UnisolatedWriteConflict, WorktreeRunConflict;
  }

  lemma RunsToFull(u: Setup) returns (s2: State)
    requires u.Valid()
    ensures IsRun(u.env, Fresh(map[]), [Start(0, u.a, u.other, true), Start(1, u.r, u.other, true)])
    ensures s2 == After(u.env, Fresh(map[]), [Start(0, u.a, u.other, true), Start(1, u.r, u.other, true)])
    ensures Reached(u, s2, map[u.a := Row(u.other, Preparing), u.r := Waits(u, Capacity)], {u.r}, {0}, Listing)
    ensures s2.settlements == []
  {
    var s1 := StartSegment(u.env, Fresh(map[]), 0, u.a, u.other, true);
    s2 := StartSegment(u.env, s1, 1, u.r, u.other, true);
    hide StartSegment, Step, Reached;
    FirstStarts(u, s1);
    SecondQueues(u, s1, s2);
    hide *;
    TwoSteps(u.env, Fresh(map[]), s1, s2, Start(0, u.a, u.other, true), Start(1, u.r, u.other, true));
  }

  function ToJudged(u: Setup): seq<Label> {
    [Start(0, u.a, u.other, true), Start(1, u.r, u.other, true), Exited(u.a, true, None), PassListed([u.r])]
  }

  // The slot is free again and the first queued run is judged.
  ghost predicate JudgesNext(u: Setup, s: State) {
    && s.rows == map[u.a := Row(u.other, Completed), u.r := Waits(u, Capacity)]
    && s.pass == Judging(map[u.r := Waits(u, Capacity)], u.r, []) && s.launches.Keys == {0}
    && s.cancels == map[] && s.failStopIntents == map[] && s.cancelRequested == {}
    && s.settlements == [Settlement(u.a, Completed, None)]
  }

  lemma SecondIsJudged(u: Setup, s3: State, s: State)
    requires u.Valid() && s == s3.(wakeUpsAtListing := s3.wakeUps, pass := Judging(ListActive(s3.rows), u.r, []))
    requires s3.rows == map[u.a := Row(u.other, Completed), u.r := Waits(u, Capacity)] && s3.pendingRuns == {u.r}
    requires s3.launches.Keys == {0} && s3.pass == Listing && s3.cancels == map[] && s3.failStopIntents == map[] && s3.cancelRequested == {}
    requires s3.settlements == [Settlement(u.a, Completed, None)]
    ensures Step(u.env, s3, PassListed([u.r]), s) && JudgesNext(u, s)
  {
    OneIsJudged(u, s3, u.r, s);
    hide Step;
    assert ListActive(s3.rows) == map[u.r := Waits(u, Capacity)];
  }

  lemma RunsToJudged(u: Setup) returns (s: State)
    requires u.Valid()
    ensures IsRun(u.env, Fresh(map[]), ToJudged(u)) && s == After(u.env, Fresh(map[]), ToJudged(u))
    ensures JudgesNext(u, s)
  {
    hide IsRun, After, Reached, JudgesNext, Setup.Valid, StartSegment, ExitedSegment, Step;
    var s2 := RunsToFull(u);
    var s3 := ExitedSegment(s2, u.a, true, None);
    HolderExits(u, s2, s3);
    s := s3.(wakeUpsAtListing := s3.wakeUps, pass := Judging(ListActive(s3.rows), u.r, []));
    SecondIsJudged(u, s3, s);
    TwoSteps(u.env, s2, s3, s, Exited(u.a, true, None), PassListed([u.r]));
    var front := [Start(0, u.a, u.other, true), Start(1, u.r, u.other, true)];
    var back := [Exited(u.a, true, None), PassListed([u.r])];
    RunsConcatenate(u.env, Fresh(map[]), front, back);
    assert front + back == ToJudged(u);
  }

  /**
   * From a fresh process: a queued run cancelled while the queue pass reads its
   * profile limit is launched all the same and settled again by its exit.
   */
  lemma CancelledRunIsLaunched(u: Setup)
    requires u.Valid()
    ensures u.env.Valid() && Initial(u.env, Fresh(map[]))
    ensures var trace := ToJudged(u) + [Cancel(2, u.r), PassJudged(2, true), Exited(u.r, true, None)];
      && IsRun(u.env, Fresh(map[]), trace)
      && (var end := After(u.env, Fresh(map[]), trace);
          && end.settlements == [Settlement(u.a, Completed, None), Settlement(u.r, Cancelled, None), Settlement(u.r, Completed, None)]
          && u.r in end.rows && end.rows[u.r].status == Completed)
  {
    FreshIsSafe(u, map[]);
    var s := RunsToJudged(u);
    NoneAhead(u, s.pass.listed, u.r);
    hide SkipReason, Initial, Setup.Valid, ToJudged;
    CancelledCandidateIsLaunched(u.env, s, 2);
    RunsConcatenate(u.env, Fresh(map[]), ToJudged(u), [Cancel(2, u.r), PassJudged(2, true), Exited(u.r, true, None)]);
  }

  // ---- a reason on a cancelled row ----

  function ToSkipped(u: Setup): seq<Label> {
    [Start(0, u.a, u.other, true), Start(1, u.r, u.other, true), Start(2, u.n, u.other, true), Cancel(0, u.r), PassListed([u.n])]
  }

  lemma ThirdQueues(u: Setup, s2: State, s3: State)
    requires u.Valid() && Reached(u, s2, map[u.a := Row(u.other, Preparing), u.r := Waits(u, Capacity)], {u.r}, {0}, Listing)
    requires s3 == StartSegment(u.env, s2, 2, u.n, u.other, true)
    ensures Step(u.env, s2, Start(2, u.n, u.other, true), s3)
    ensures Reached(u, s3, map[u.a := Row(u.other, Preparing), u.r := Waits(u, Capacity), u.n := Waits(u, Fifo)], {u.r, u.n}, {0}, Listing)
  {
    HoldsOne(s2, u.a);
    assert u.r in ListActive(s2.rows);
    StartQueues(u, s2, 2, u.n);
    hide StartSegment, Setup.Valid, Live;
  }

  lemma WaitingIsCancelled(u: Setup, s3: State, s4: State)
    requires u.Valid() && s4 == CancelSegment(s3, 0, u.r)
    requires Reached(u, s3, map[u.a := Row(u.other, Preparing), u.r := Waits(u, Capacity), u.n := Waits(u, Fifo)], {u.r, u.n}, {0}, Listing)
    ensures Step(u.env, s3, Cancel(0, u.r), s4)
    ensures Reached(u, s4, map[u.a := Row(u.other, Preparing), u.r := Row(u.other, Cancelled), u.n := Waits(u, Fifo)], {u.n}, {0}, Listing)
  {
    assert s4.rows == s3.rows[u.r := Row(u.other, Cancelled)];
  }

  lemma OneAhead(u: Setup, listed: Runs, q: RunId, a: RunId)
    requires u.Valid() && q in listed && a in listed && listed[a].status.Live()
    ensures SkipReason(u.env, RunningForLimits(listed), q, u.other) == Some(Capacity)
  {
    assert a in RunningForLimits(listed);
    FullOrEmpty(u, RunningForLimits(listed), u.other);
    hide HasCapacity, UnisolatedWriteConflict, WorktreeRunConflict;
  }

  // What the listing of the third run's queue entry looks like.
  ghost predicate SkipsNext(u: Setup, s: State) {
    && s.rows == map[u.a := Row(u.other, Preparing), u.r := Row(u.other, Cancelled), u.n := Waits(u, Fifo)]
    && s.pass == Judging(map[u.a := Row(u.other, Preparing), u.n := Waits(u, Fifo)], u.n, [])
    && s.launches.Keys == {0} && s.cancels == map[]
  }

  lemma ThirdIsJudged(u: Setup, s4: State, s: State)
    requires u.Valid() && s == s4.(wakeUpsAtListing := s4.wakeUps, pass := Judging(ListActive(s4.rows), u.n, []))
    requires Reached(u, s4, map[u.a := Row(u.other, Preparing), u.r := Row(u.other, Cancelled), u.n := Waits(u, Fifo)], {u.n}, {0}, Listing)
    ensures Step(u.env, s4, PassListed([u.n]), s) && SkipsNext(u, s)
  {
    OneIsJudged(u, s4, u.n, s);
    hide Step;
    assert ListActive(s4.rows) == map[u.a := Row(u.other, Preparing), u.n := Waits(u, Fifo)];
  }

  lemma RunsOnToSkipped(u: Setup, s2: State) returns (s: State)
    requires u.Valid()
    requires Reached(u, s2, map[u.a := Row(u.other, Preparing), u.r := Waits(u, Capacity)], {u.r}, {0}, Listing)
    ensures var trace := [Start(2, u.n, u.other, true), Cancel(0, u.r), PassListed([u.n])];
      IsRun(u.env, s2, trace) && s == After(u.env, s2, trace)
    ensures SkipsNext(u, s)
  {
    var s3 := StartSegment(u.env, s2, 2, u.n, u.other, true);
    var s4 := CancelSegment(s3, 0, u.r);
    s := s4.(wakeUpsAtListing := s4.wakeUps, pass := Judging(ListActive(s4.rows), u.n, []));
    hide StartSegment, CancelSegment, Step, Reached, SkipsNext;
    ThirdQueues(u, s2, s3);
    WaitingIsCancelled(u, s3, s4);
    ThirdIsJudged(u, s4, s);
    hide *;
    ThreeSteps(u.env, s2, s3, s4, s, Start(2, u.n, u.other, true), Cancel(0, u.r), PassListed([u.n]));
  }

  lemma RunsToSkipped(u: Setup) returns (s: State)
    requires u.Valid()
    ensures IsRun(u.env, Fresh(map[]), ToSkipped(u)) && s == After(u.env, Fresh(map[]), ToSkipped(u))
    ensures SkipsNext(u, s)
  {
    hide IsRun, After, Reached, SkipsNext, Setup.Valid;
    var s2 := RunsToFull(u);
    s := RunsOnToSkipped(u, s2);
    var front := [Start(0, u.a, u.other, true), Start(1, u.r, u.other, true)];
    var back := [Start(2, u.n, u.other, true), Cancel(0, u.r), PassListed([u.n])];
    RunsConcatenate(u.env, Fresh(map[]), front, back);
    assert front + back == ToSkipped(u);
  }

  /** From a fresh process: a run cancelled while it is judged ends cancelled and still shows a queue reason. */
  lemma CancelledRunShowsReason(u: Setup)
    requires u.Valid()
    ensures u.env.Valid() && Initial(u.env, Fresh(map[])) && OnlyWaitingShow(Fresh(map[]))
    ensures var trace := ToSkipped(u) + [Cancel(3, u.n), PassJudged(3, true)];
      && IsRun(u.env, Fresh(map[]), trace)
      && (var end := After(u.env, Fresh(map[]), trace);
          u.n in end.rows && end.rows[u.n].status == Cancelled && end.rows[u.n].queuedReason.Some?)
  {
    FreshIsSafe(u, map[]);
    var s := RunsToSkipped(u);
    OneAhead(u, s.pass.listed, u.n, u.a);
    hide SkipReason, Initial, Setup.Valid, ToSkipped;
    SkippedReasonAfterCancel(u.env, s, 3);
    RunsConcatenate(u.env, Fresh(map[]), ToSkipped(u), [Cancel(3, u.n), PassJudged(3, true)]);
  }

  // ---- an adapterless cancel ----

  // A run that survived from an earlier process.
  function Survivor(u: Setup): Run { Run(u.other, Running, None, true, None) }

  lemma SurvivorSteps(u: Setup, intent: Classification, s: State, s1: State, s2: State, s3: State)
    requires s == Fresh(map[u.r := Survivor(u)]) && s1 == s.(adapterlessCancels := {u.r})
    requires s2 == s1.(failStopIntents := map[u.r := intent], failStops := map[u.r := FailStop(StoppingProcess, intent)])
    requires s3 == s2.(failStops := map[u.r := FailStop(ProbingSurvivor, intent)])
    ensures Step(u.env, s, Cancel(0, u.r), s1)
    ensures Step(u.env, s1, FailAndStop(u.r, intent, true), s2)
    ensures Step(u.env, s2, FailStopStopped(u.r, NotFound), s3)
  {
    hide CancelQueued, SettleFailedStop;
  }

  lemma SurvivorIsGone(u: Setup, intent: Classification, s3: State, s4: State)
    requires s3.rows == map[u.r := Survivor(u)] && s3.adapterlessCancels == {u.r} && s3.settlements == []
    requires s3.failStops == map[u.r := FailStop(ProbingSurvivor, intent)]
    requires s4 == SettleFailedStop(s3.(failStops := map[]), u.r, intent)
    ensures Step(u.env, s3, FailStopProbed(u.r, false), s4)
    ensures s4.rows == map[u.r := Survivor(u).(status := Failed, classification := Some(intent))] && s4.adapterlessCancels == {u.r}
    ensures s4.settlements == [Settlement(u.r, Failed, Some(intent))]
  {
    assert s3.failStops - {u.r} == map[];
  }

  lemma CancelComesBack(u: Setup, intent: Classification, s4: State, s5: State)
    requires s4.rows == map[u.r := Survivor(u).(status := Failed, classification := Some(intent))] && s4.adapterlessCancels == {u.r}
    requires s5 == AdapterlessSegment(s4, u.r)
    ensures Step(u.env, s4, AdapterlessReturned(u.r), s5)
    ensures s5.settlements == s4.settlements + [Settlement(u.r, Cancelled, None)]
    ensures u.r in s5.rows && s5.rows[u.r].status == Cancelled && s5.rows[u.r].classification == Some(intent)
  {
  }

  /**
   * From a fresh process with a surviving run: it is cancelled without an adapter,
   * stopped as failed while the cancel waits, and rewritten as cancelled.
   */
  lemma AdapterlessCancelOverwritesStop(u: Setup, intent: Classification)
    requires u.Valid()
    ensures u.env.Valid() && Initial(u.env, Fresh(map[u.r := Survivor(u)]))
    ensures var s := Fresh(map[u.r := Survivor(u)]);
      var trace := [Cancel(0, u.r), FailAndStop(u.r, intent, true), FailStopStopped(u.r, NotFound), FailStopProbed(u.r, false),
                    AdapterlessReturned(u.r)];
      && IsRun(u.env, s, trace)
      && (var end := After(u.env, s, trace);
          && end.settlements == [Settlement(u.r, Failed, Some(intent)), Settlement(u.r, Cancelled, None)]
          && u.r in end.rows && end.rows[u.r].status == Cancelled && end.rows[u.r].classification == Some(intent))
  {
    var s0 := Fresh(map[u.r := Survivor(u)]);
    FreshIsSafe(u, s0.rows);
    var s1 := s0.(adapterlessCancels := {u.r});
    var s2 := s1.(failStopIntents := map[u.r := intent], failStops := map[u.r := FailStop(StoppingProcess, intent)]);
    var s3 := s2.(failStops := map[u.r := FailStop(ProbingSurvivor, intent)]);
    var s4 := SettleFailedStop(s3.(failStops := map[]), u.r, intent);
    var s5 := AdapterlessSegment(s4, u.r);
    hide Setup.Valid, Initial, Step, SettleFailedStop, AdapterlessSegment, Enabled, Apply, IsRun, After;
    SurvivorSteps(u, intent, s0, s1, s2, s3);
    SurvivorIsGone(u, intent, s3, s4);
    CancelComesBack(u, intent, s4, s5);
    FiveSteps(u.env, s0, s1, s2, s3, s4, s5, Cancel(0, u.r), FailAndStop(u.r, intent, true), FailStopStopped(u.r, NotFound),
      FailStopProbed(u.r, false), AdapterlessReturned(u.r));
  }
}
