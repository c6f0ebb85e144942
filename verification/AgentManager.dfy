/**
 * The agent manager's own form: an object whose segments update its rows and
 * in-memory maps in place (createAgentManager, agent-manager.ts).  Every method
 * is one synchronous segment between two `await`s and is proved to take exactly
 * the step of the transition system that its label names, so what is proved
 * about all runs of that system holds of every interleaving of these methods.
 */
module AgentManager {
  import opened Common
  import opened RunAdmission
  import opened RunLifecycle
  import opened RunSettlement
  import opened RunIntents
  import opened AdmissionSafety
  import opened QueuePasses

  class Manager {
    const env: Env
    var rows: Runs
    var pendingRuns: set<RunId>
    var activeAdapters: set<RunId>
    var cancelRequested: set<RunId>
    var failStopIntents: map<RunId, Classification>
    var inFlightLaunches: set<RunId>
    var launches: map<Call, Launch>
    var resumes: map<Call, RunId>
    var cancels: map<Call, RunId>
    var adapterlessCancels: set<RunId>
    var failStops: map<RunId, FailStop>
    var advancingQueue: bool
    var advanceAgain: bool
    var passes: map<PassId, Pass>
    var started: nat
    ghost var wakeUps: nat
    ghost var wakeUpsAtListing: nat
    var settlements: seq<Settlement>

    ghost function View(): State
      reads this
    {
      State(rows, pendingRuns, activeAdapters, cancelRequested, failStopIntents, inFlightLaunches, launches, resumes,
            cancels, adapterlessCancels, failStops, Queue().Current(), advanceAgain, wakeUps, wakeUpsAtListing, settlements)
    }

    ghost function Queue(): Passes
      reads this
    {
      Passes(advancingQueue, advanceAgain, passes, started)
    }

    /** At most one queue pass is in flight, and a launch of the queue has its pass waiting for it. */
    ghost predicate Valid()
      reads this
    {
      Queue().Valid() && Awaited(launches, passes)
    }

    // A fresh process over the rows an earlier one left behind.
    constructor (env: Env, stored: Runs)
      requires Safe(env, RunningForLimits(ListActive(stored)))
      requires forall r | r in stored :: !stored[r].status.Queued?
      ensures Valid() && this.env == env && rows == stored
      ensures Initial(env, View())
    {
      this.env := env;
      rows := stored;
      pendingRuns, activeAdapters, cancelRequested := {}, {}, {};
      failStopIntents, inFlightLaunches := map[], {};
      launches, resumes, cancels := map[], map[], map[];
      adapterlessCancels, failStops := {}, map[];
      advancingQueue, advanceAgain, passes, started := false, false, map[], 0;
      wakeUps, wakeUpsAtListing, settlements := 0, 0, [];
    }

    // ---- shared by the segments ----

    // advanceQueue up to its first await; any number of calls may come at any time.
    method ScheduleQueueAdvance()
      requires Valid()
      modifies this`advancingQueue, this`advanceAgain, this`passes, this`started, this`wakeUps
      ensures Valid() && View() == Wake(old(View()))
    {
      AdvanceIsWake(View(), Queue());
      AdvanceAwaits(launches, Queue());
      hide Passes.Valid, Passes.Current, Awaited;
      wakeUps := wakeUps + 1;
      AdvanceQueue();
    }

    method AdvanceQueue()
      modifies this`advancingQueue, this`advanceAgain, this`passes, this`started
      ensures Queue() == Advance(old(Queue()))
    {
      if advancingQueue {
        advanceAgain := true;
        return;
      }
      advancingQueue := true;
      advanceAgain := false;
      passes := passes[started := Listing];
      started := started + 1;
    }

    // appendEvent of a terminal event and runs.update of the terminal row.
    method WriteTerminal(r: RunId, status: Status, classification: Option<Classification>)
      modifies this`settlements, this`rows
      ensures View() == Settle(old(View()), r, status, classification)
    {
      hide Passes.Valid, Passes.Current;
      settlements := settlements + [Settlement(r, status, classification)];
      if r in rows {
        var found := if classification.Some? then classification else rows[r].classification;
        rows := rows[r := rows[r].(status := status, classification := found)];
      }
    }

    method ClearQueuedReason(r: RunId)
      modifies this`rows
      ensures rows == LeaveQueue(old(rows), r)
    {
      if r in rows {
        rows := rows[r := rows[r].(queuedReason := None)];
      }
    }

    method FinishFailedStop(r: RunId, classification: Classification)
      requires Valid()
      modifies this
      ensures Valid() && View() == SettleFailedStop(old(View()), r, classification)
    {
      hide Awaited, Passes.Valid, Passes.Current;
      WriteTerminal(r, Failed, Some(classification));
      ClearQueuedReason(r);
      activeAdapters := activeAdapters - {r};
      cancelRequested := cancelRequested - {r};
      failStopIntents := failStopIntents - {r};
      ScheduleQueueAdvance();
    }

    method Launch(r: RunId, call: Call, caller: Caller)
      requires r in rows
      modifies this`rows, this`activeAdapters, this`inFlightLaunches, this`launches
      ensures launches == old(launches)[call := RunLifecycle.Launch(r, Starting, caller, old(rows)[r].status)]
      ensures View() == BeginLaunch(old(View()), r, call, caller)
    {
      inFlightLaunches := inFlightLaunches + {r};
      var seen := rows[r].status;
      if seen.Queued? {
        rows := rows[r := rows[r].(status := Preparing, queuedReason := None)];
      }
      activeAdapters := activeAdapters + {r};
      launches := launches[call := RunLifecycle.Launch(r, Starting, caller, seen)];
    }

    // The `finally` of launch and what its caller does with the result.
    method LaunchReturns(call: Call, ok: bool)
      requires Valid()
      requires call in launches
      modifies this
      ensures Valid() && View() == RunLifecycle.EndLaunch(old(View()), call, ok)
    {
      var l := launches[call];
      inFlightLaunches := inFlightLaunches - {l.run};
      if l.caller.ByQueue? {
        ListAgain(call);
        return;
      }
      OthersAwait(launches, passes, call, l);
      hide Awaited, Passes.Valid, Passes.Current;
      launches := launches - {call};
      if l.caller.ByStart? && !ok {
        ScheduleQueueAdvance();
      }
    }

    // The launch returns to the pass that awaited it, which lists again.
    method ListAgain(call: Call)
      requires Valid() && call in launches && launches[call].caller.ByQueue?
      modifies this`launches, this`passes
      ensures launches == old(launches) - {call}
      ensures Valid() && View() == old(View()).(launches := old(launches) - {call}, pass := Listing)
    {
      var p :| p in passes && passes[p] == Promoting(call);
      SuspendKeeps(Queue(), p, Listing);
      ReturningAwaits(launches, Queue(), p, call);
      hide Awaited, Passes.Valid, Passes.Current;
      launches := launches - {call};
      passes := passes[p := Listing];
    }

    method StopLeftover(call: Call)
      requires Valid()
      requires call in launches
      modifies this
      ensures Valid() && View() == AbandonLaunch(old(View()), call)
    {
      var l := launches[call];
      OthersAwait(launches, passes, call, l.(stage := Stopping));
      hide Awaited, Passes.Valid, Passes.Current;
      activeAdapters := activeAdapters - {l.run};
      launches := launches[call := l.(stage := Stopping)];
    }

    method EnterOrLaunch(call: Call, r: RunId, spec: Spec, caller: Caller, reason: Option<QueuedReason>)
      requires Valid() && !caller.ByQueue?
      modifies this
      ensures Valid() && View() == Enter(old(View()), call, r, spec, caller, reason)
    {
      if reason.Some? {
        rows := rows[r := Run(spec, Queued, reason, false, None)];
        pendingRuns := pendingRuns + {r};
        ScheduleQueueAdvance();
      } else {
        rows := rows[r := Run(spec, Preparing, None, false, None)];
        OthersAwait(launches, passes, call, RunLifecycle.Launch(r, Starting, caller, Preparing));
        hide Awaited, Passes.Valid, Passes.Current;
        Launch(r, call, caller);
      }
    }

    // ---- start and resume ----

    method Start(call: Call, r: RunId, spec: Spec, initialized: bool)
      requires Valid()
      requires Enabled(View(), RunLifecycle.Start(call, r, spec, initialized))
      modifies this
      ensures Valid() && View() == StartSegment(env, old(View()), call, r, spec, initialized)
    {
      hide Awaited, Passes.Valid, Passes.Current;
      var listed := ListActive(rows);
      var active := RunningForLimits(listed);
      if UnisolatedWriteConflict(active, spec) {
        return;
      }
      if WorktreeRunConflict(active, spec.worktreeId, None) {
        return;
      }
      var available := HasCapacity(active, spec, env.policy(spec.workspaceId), env.LimitFor(spec.accountProfileId));
      var reason := QueueEntryReason(listed, available);
      // An existing id fails the INSERT; a failed initialization deletes the new row again.
      if r in rows || !initialized {
        return;
      }
      EnterOrLaunch(call, r, spec, ByStart, reason);
    }

    method CommitResume(call: Call, r: RunId)
      requires Valid()
      modifies this
      ensures Valid() && View() == ResumeCommit(env, old(View()), call, r)
    {
      hide Awaited, Passes.Valid, Passes.Current;
      if r !in rows {
        return;
      }
      var spec := rows[r].spec;
      var listed := ListActive(rows);
      var active := RunningForLimits(listed);
      if UnisolatedWriteConflict(active, spec) {
        return;
      }
      if WorktreeRunConflict(active, spec.worktreeId, Some(r)) {
        return;
      }
      var available := HasCapacity(active, spec, env.policy(spec.workspaceId), env.LimitFor(spec.accountProfileId));
      EnterOrLaunch(call, r, spec, ByResume, QueueEntryReason(listed, available));
    }

    method Resume(call: Call, r: RunId)
      requires Valid()
      requires Enabled(View(), RunLifecycle.Resume(call, r))
      modifies this
      ensures Valid() && View() == ResumeSegment(env, old(View()), call, r)
    {
      hide Awaited, Passes.Valid, Passes.Current;
      if r !in rows || !rows[r].status.Interrupted? {
        return;
      }
      if rows[r].spec.accountProfileId.None? {
        CommitResume(call, r);
      } else {
        resumes := resumes[call := r];
      }
    }

    method ResumeReturned(call: Call, profileOk: bool)
      requires Valid()
      requires Enabled(View(), RunLifecycle.ResumeReturned(call, profileOk))
      modifies this
      ensures Valid() && View() == Apply(env, old(View()), RunLifecycle.ResumeReturned(call, profileOk))
    {
      hide Awaited, Passes.Valid, Passes.Current;
      var r := resumes[call];
      resumes := resumes - {call};
      if profileOk {
        CommitResume(call, r);
      }
    }

    // ---- launch ----

    method LaunchStarted(call: Call, ok: bool, classification: Option<Classification>)
      requires Valid()
      requires Enabled(View(), RunLifecycle.LaunchStarted(call, ok, classification))
      modifies this
      ensures Valid() && View() == LaunchStartedSegment(old(View()), call, ok, classification)
    {
      hide Awaited, Passes.Valid, Passes.Current;
      var r := launches[call].run;
      if !ok {
        WriteTerminal(r, Failed, classification);
        activeAdapters := activeAdapters - {r};
        LaunchReturns(call, r in rows);
      } else if r in rows && rows[r].status.Terminal() {
        StopLeftover(call);
      } else {
        assert Awaited(launches[call := launches[call].(stage := Identifying)], passes) by {
          OthersAwait(launches, passes, call, launches[call].(stage := Identifying));
        }
        launches := launches[call := launches[call].(stage := Identifying)];
      }
    }

    method LaunchIdentified(call: Call)
      requires Valid()
      requires Enabled(View(), RunLifecycle.LaunchIdentified(call))
      modifies this
      ensures Valid() && View() == LaunchIdentifiedSegment(old(View()), call)
    {
      hide Awaited, Passes.Valid, Passes.Current;
      var r := launches[call].run;
      if r in rows && rows[r].status.Terminal() {
        StopLeftover(call);
      } else {
        var known := r in rows;
        if known {
          rows := rows[r := rows[r].(status := Running, hasProcess := true)];
        }
        LaunchReturns(call, known);
      }
    }

    method LaunchStopped(call: Call)
      requires Valid()
      requires Enabled(View(), RunLifecycle.LaunchStopped(call))
      modifies this
      ensures Valid() && View() == EndLaunch(old(View()), call, true)
    {
      LaunchReturns(call, true);
    }

    // ---- the ends of a run ----

    // The status and classification of an exit; both intents are used up.
    method DecideExit(r: RunId, cleanExit: bool, classification: Option<Classification>)
      returns (status: Status, found: Option<Classification>)
      modifies this`failStopIntents, this`cancelRequested
      ensures failStopIntents == old(failStopIntents) - {r} && cancelRequested == old(cancelRequested) - {r}
      ensures r in old(failStopIntents) ==> status == Failed && found == Some(old(failStopIntents)[r])
      ensures r !in old(failStopIntents) ==>
        && status == (if r in old(cancelRequested) then Cancelled else if cleanExit then Completed else Failed)
        && found == if status.Failed? then classification else None
    {
      var failStop := if r in failStopIntents then Some(failStopIntents[r]) else None;
      failStopIntents := failStopIntents - {r};
      var cancelIntent := r in cancelRequested;
      cancelRequested := cancelRequested - {r};
      status, found := Failed, failStop;
      if failStop.None? {
        if cancelIntent {
          status := Cancelled;
        } else if cleanExit {
          status := Completed;
        } else {
          found := classification;
        }
      }
    }

    method Exited(r: RunId, cleanExit: bool, classification: Option<Classification>)
      requires Valid()
      modifies this
      ensures Valid() && View() == ExitedSegment(old(View()), r, cleanExit, classification)
    {
      hide Awaited, Passes.Valid, Passes.Current;
      if r !in activeAdapters {
        return;
      }
      hide SettleRow;
      var status, found := DecideExit(r, cleanExit, classification);
      WriteTerminal(r, status, found);
      activeAdapters := activeAdapters - {r};
      ScheduleQueueAdvance();
    }

    method Cancel(call: Call, r: RunId)
      requires Valid()
      requires Enabled(View(), RunLifecycle.Cancel(call, r))
      modifies this
      ensures Valid() && View() == CancelSegment(old(View()), call, r)
    {
      hide Awaited, Passes.Valid, Passes.Current;
      if r !in rows || rows[r].status.Terminal() {
        return;
      }
      if rows[r].status.Queued? {
        pendingRuns := pendingRuns - {r};
        WriteTerminal(r, Cancelled, None);
        ClearQueuedReason(r);
        ScheduleQueueAdvance();
      } else if r !in activeAdapters {
        adapterlessCancels := adapterlessCancels + {r};
      } else {
        cancelRequested := cancelRequested + {r};
        cancels := cancels[call := r];
      }
    }

    method CancelReturned(call: Call, ok: bool)
      requires Valid()
      requires Enabled(View(), RunLifecycle.CancelReturned(call, ok))
      modifies this
      ensures Valid() && View() == CancelReturnedSegment(old(View()), call, ok)
    {
      hide Awaited, Passes.Valid, Passes.Current;
      var r := cancels[call];
      cancels := cancels - {call};
      if !ok {
        cancelRequested := cancelRequested - {r};
        return;
      }
      if r in rows && rows[r].status.Terminal() {
        return;
      }
      WriteTerminal(r, Cancelled, None);
      cancelRequested := cancelRequested - {r};
      activeAdapters := activeAdapters - {r};
    }

    method AdapterlessReturned(r: RunId)
      requires Valid()
      requires Enabled(View(), RunLifecycle.AdapterlessReturned(r))
      modifies this
      ensures Valid() && View() == AdapterlessSegment(old(View()), r)
    {
      hide Awaited, Passes.Valid, Passes.Current;
      WriteTerminal(r, Cancelled, None);
      ScheduleQueueAdvance();
      adapterlessCancels := adapterlessCancels - {r};
    }

    method FailAndStop(r: RunId, classification: Classification, processManager: bool)
      requires Valid()
      modifies this
      ensures Valid() && View() == FailStopSegment(old(View()), r, classification, processManager)
    {
      hide Awaited, Passes.Valid, Passes.Current;
      if r in failStops || r !in rows || rows[r].status.Terminal() {
        return;
      }
      if rows[r].status.Queued? {
        pendingRuns := pendingRuns - {r};
        FinishFailedStop(r, classification);
        return;
      }
      if rows[r].status.Preparing? && !rows[r].hasProcess && r in inFlightLaunches {
        return;
      }
      failStopIntents := failStopIntents[r := classification];
      if !rows[r].hasProcess {
        failStops := failStops[r := FailStop(ProbingSurvivor, classification)];
      } else if !processManager {
        failStopIntents := failStopIntents - {r};
      } else {
        failStops := failStops[r := FailStop(StoppingProcess, classification)];
      }
    }

    method FailStopStopped(r: RunId, outcome: StopOutcome)
      requires Valid()
      requires Enabled(View(), RunLifecycle.FailStopStopped(r, outcome))
      modifies this
      ensures Valid() && View() == FailStopStoppedSegment(old(View()), r, outcome)
    {
      hide Awaited, Passes.Valid, Passes.Current;
      var f := failStops[r];
      if outcome.NotFound? {
        failStops := failStops[r := f.(stage := ProbingSurvivor)];
        return;
      }
      failStops := failStops - {r};
      if !outcome.Stopped? {
        failStopIntents := failStopIntents - {r};
      } else if r in rows && !rows[r].status.Terminal() {
        FinishFailedStop(r, f.classification);
      }
    }

    method FailStopProbed(r: RunId, alive: bool)
      requires Valid()
      requires Enabled(View(), RunLifecycle.FailStopProbed(r, alive))
      modifies this
      ensures Valid() && View() == FailStopProbedSegment(old(View()), r, alive)
    {
      hide Awaited, Passes.Valid, Passes.Current;
      var f := failStops[r];
      failStops := failStops - {r};
      if alive || r !in rows || rows[r].status.Terminal() {
        failStopIntents := failStopIntents - {r};
      } else {
        FinishFailedStop(r, f.classification);
      }
    }

    // ---- the queue pass ----

    // The `for` of advanceQueue in one pass: on to the next candidate with a pending request.
    method ScanCandidates(p: PassId, listed: Runs, order: seq<RunId>)
      requires p in passes
      modifies this`advancingQueue, this`advanceAgain, this`passes
      ensures Queue() == Scanned(old(Queue()), p, listed, order, pendingRuns)
    {
      var i := 0;
      while i < |order| && order[i] !in pendingRuns
        invariant 0 <= i <= |order|
        invariant Queue() == old(Queue())
        invariant Scanned(Queue(), p, listed, order, pendingRuns) == Scanned(Queue(), p, listed, order[i..], pendingRuns)
      {
        assert order[i..][1..] == order[i + 1..];
        i := i + 1;
      }
      if i < |order| {
        assert order[i..][1..] == order[i + 1..];
        passes := passes[p := Judging(listed, order[i], order[i + 1..])];
      } else if advanceAgain {
        advanceAgain := false;
        passes := passes[p := Listing];
      } else {
        advancingQueue := false;
        passes := passes - {p};
      }
    }

    method Scan(p: PassId, listed: Runs, order: seq<RunId>)
      requires Queue().Valid() && p in passes
      modifies this`advancingQueue, this`advanceAgain, this`passes
      ensures Queue().Valid() && View() == NextCandidate(old(View()), listed, order)
    {
      ScannedIsNext(View(), Queue(), p, listed, order);
      NextCandidateStays(View(), listed, order);
      hide NextCandidate, Scanned, Passes.Valid, Passes.Current;
      ScanCandidates(p, listed, order);
    }

    method PassListed(p: PassId, order: seq<RunId>)
      requires Valid() && p in passes && passes[p].Listing? && Enumerates(order, rows)
      modifies this
      ensures Valid() && View() == PassListedSegment(old(View()), order)
    {
      CurrentIs(Queue(), p);
      wakeUpsAtListing := wakeUps;
      Scan(p, ListActive(rows), order);
    }

    method PassListFailed(p: PassId)
      requires Valid() && p in passes && passes[p].Listing?
      modifies this
      ensures Valid() && View() == old(View()).(pass := Idle)
    {
      CurrentIs(Queue(), p);
      LeaveKeeps(Queue(), p);
      advancingQueue := false;
      passes := passes - {p};
    }

    method Judge(listed: Runs, c: RunId) returns (skip: Option<QueuedReason>)
      requires c in listed
      ensures skip == SkipReason(env, RunningForLimits(listed), c, listed[c].spec)
    {
      var spec := listed[c].spec;
      var active := RunningForLimits(listed);
      if UnisolatedWriteConflict(active, spec) {
        return Some(DirectoryBusy);
      }
      if WorktreeRunConflict(active, spec.worktreeId, Some(c)) {
        return Some(WorktreeBusy);
      }
      var available := HasCapacity(active, spec, env.policy(spec.workspaceId), env.LimitFor(spec.accountProfileId));
      return if available then None else Some(Capacity);
    }

    // updateQueuedReason: the row is only written when the reason changed.
    method RecordReason(r: RunId, known: Option<QueuedReason>, reason: QueuedReason)
      modifies this`rows
      ensures View() == UpdateQueuedReason(old(View()), r, known, reason)
    {
      if known == Some(reason) {
        return;
      }
      if r in rows {
        rows := rows[r := rows[r].(queuedReason := Some(reason))];
      }
    }

    // The pass takes its candidate out of the pending requests and launches it.
    method Promote(p: PassId, c: RunId, call: Call)
      requires Valid() && p in passes && passes[p].Judging?
      modifies this
      ensures Valid()
      ensures var s := old(View()).(pendingRuns := old(pendingRuns) - {c});
        View() == if c in s.rows then BeginLaunch(s, c, call, ByQueue).(pass := Promoting(call)) else s.(pass := Listing)
    {
      SuspendKeeps(Queue(), p, Promoting(call));
      SuspendKeeps(Queue(), p, Listing);
      MovingAwaits(launches, Queue(), p, call, RunLifecycle.Launch(c, Starting, ByQueue, if c in rows then rows[c].status else Queued));
      hide Awaited, Passes.Valid, Passes.Current;
      pendingRuns := pendingRuns - {c};
      if c in rows {
        passes := passes[p := Promoting(call)];
        Launch(c, call, ByQueue);
      } else {
        passes := passes[p := Listing];
      }
    }

    method PassJudged(p: PassId, call: Call, limitRead: bool)
      requires Valid() && p in passes && passes[p].Judging? && passes[p].candidate in passes[p].listed && call !in launches
      modifies this
      ensures old(View().pass) == old(passes[p])
      ensures Valid() && View() == PassJudgedSegment(env, old(View()), call, limitRead)
    {
      CurrentIs(Queue(), p);
      var Judging(listed, c, rest) := passes[p];
      assert forall running :: Awaited(launches, running) by {
        MovingAwaits(launches, Queue(), p, call, RunLifecycle.Launch(c, Starting, ByQueue, Queued));
      }
      hide Awaited, Passes.Valid, Passes.Current, NextCandidate, BeginLaunch, SkipReason;
      if !limitRead {
        Scan(p, listed, rest);
        return;
      }
      var run := listed[c];
      var skip := Judge(listed, c);
      if skip.Some? {
        RecordReason(c, run.queuedReason, skip.value);
        Scan(p, listed, rest);
      } else {
        Promote(p, c, call);
      }
    }

    // ---- the event loop ----

    method Perform(l: Label)
      requires Valid()
      requires Enabled(View(), l)
      modifies this
      ensures Valid() && View() == Apply(env, old(View()), l)
    {
      match l
      case Start(call, r, spec, initialized) => Start(call, r, spec, initialized);
      case Resume(call, r) => Resume(call, r);
      case ResumeReturned(call, profileOk) => ResumeReturned(call, profileOk);
      case LaunchStarted(call, ok, classification) => LaunchStarted(call, ok, classification);
      case LaunchIdentified(call) => LaunchIdentified(call);
      case LaunchStopped(call) => LaunchStopped(call);
      case Exited(r, cleanExit, classification) => Exited(r, cleanExit, classification);
      case Cancel(call, r) => Cancel(call, r);
      case CancelReturned(call, ok) => CancelReturned(call, ok);
      case AdapterlessReturned(r) => AdapterlessReturned(r);
      case FailAndStop(r, classification, processManager) => FailAndStop(r, classification, processManager);
      case FailStopStopped(r, outcome) => FailStopStopped(r, outcome);
      case FailStopProbed(r, alive) => FailStopProbed(r, alive);
      case PassListed(order) =>
        var p :| p in passes;
        CurrentIs(Queue(), p);
        PassListed(p, order);
      case PassListFailed =>
        var p :| p in passes;
        CurrentIs(Queue(), p);
        PassListFailed(p);
      case PassJudged(call, limitRead) =>
        var p :| p in passes;
        CurrentIs(Queue(), p);
        PassJudged(p, call, limitRead);
    }

    /**
     * Any interleaving of segments in which no resume overlaps another of its
     * run, from a fresh process on: the limits and the isolation rules hold and
     * queue passes never overlap.  If moreover the calls are careful, every run
     * settled since the start has exactly one terminal event, with the outcome of
     * its row.
     */
    method Serve(trace: seq<Label>)
      requires Valid() && env.Valid() && Initial(env, View())
      requires IsRun(env, View(), trace) && Always(env, View(), trace, NoOverlappingResume)
      modifies this
      ensures Valid() && View() == After(env, old(View()), trace)
      ensures Safe(env, Live(View()))
      ensures Always(env, old(View()), trace, Careful) ==> LogAgrees(View(), SettledIn(old(rows)))
      ensures Always(env, old(View()), trace, TameIn(env)) ==> LogAgrees(View(), SettledIn(old(rows)))
    {
      ghost var s0 := View();
      FromTheStart(env, s0, trace);
      hide *;
      var i := 0;
      while i < |trace|
        invariant 0 <= i <= |trace| && Valid()
        invariant IsRun(env, View(), trace[i..])
        invariant After(env, View(), trace[i..]) == After(env, s0, trace)
      {
        FirstStep(env, View(), trace[i..]);
        assert trace[i..][0] == trace[i] && trace[i..][1..] == trace[i + 1..];
        Perform(trace[i]);
        i := i + 1;
      }
      NoStep(env, View(), trace[i..]);
    }
  }

  // What the executions of a fresh process promise.
  lemma FromTheStart(env: Env, s: State, trace: seq<Label>)
    requires env.Valid() && Initial(env, s)
    requires IsRun(env, s, trace) && Always(env, s, trace, NoOverlappingResume)
    ensures Safe(env, Live(After(env, s, trace)))
    ensures Always(env, s, trace, Careful) ==> LogAgrees(After(env, s, trace), SettledIn(s.rows))
    ensures Always(env, s, trace, TameIn(env)) ==> LogAgrees(After(env, s, trace), SettledIn(s.rows))
  {
    InitialInv(env, s);
    InitialBookkeeping(env, s);
    hide *;
    LimitsHoldWithoutOverlappingResumes(env, s, Live(s).Keys, trace);
    if Always(env, s, trace, Careful) {
      CarefulIsTame(env, s, Live(s).Keys, trace);
    }
    if Always(env, s, trace, TameIn(env)) {
      EveryInterleavingSettlesOnce(env, s, Live(s).Keys, SettledIn(s.rows), trace);
    }
  }

  lemma FirstStep(env: Env, s: State, trace: seq<Label>)
    requires IsRun(env, s, trace) && trace != []
    ensures Enabled(s, trace[0]) && IsRun(env, Apply(env, s, trace[0]), trace[1..])
    ensures After(env, s, trace) == After(env, Apply(env, s, trace[0]), trace[1..])
  {
    hide Enabled, Apply;
  }

  lemma NoStep(env: Env, s: State, trace: seq<Label>)
    requires IsRun(env, s, trace) && trace == []
    ensures After(env, s, trace) == s
  {
  }
}
