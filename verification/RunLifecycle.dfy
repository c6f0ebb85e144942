/**
 * The agent manager (agent-manager.ts) as a transition system.  Every async
 * function is cut at its `await`s; a label is one synchronous segment together
 * with what the outside world answered, and `Apply` is the new state.
 * In-flight calls are kept in maps keyed by a call number, so any number of
 * calls may overlap and their segments may interleave in any order.
 */
module RunLifecycle {
  import opened Common
  import opened RunAdmission

  type Call = nat

  // Where a launch is suspended: in adapter.start, in the process identity read,
  // or in the adapter.cancel that stops a process whose row is already settled.
  datatype LaunchStage = Starting | Identifying | Stopping

  datatype Caller = ByStart | ByResume | ByQueue

  // `seen` is the row status launchInner read first (its local `current`).
  datatype Launch = Launch(run: RunId, stage: LaunchStage, caller: Caller, seen: Status)

  datatype FailStopStage = StoppingProcess | ProbingSurvivor

  datatype FailStop = FailStop(stage: FailStopStage, classification: Classification)

  // The queue pass: not running, about to list, waiting for the profile limit
  // of one candidate of a listing, or waiting for the launch it started.
  datatype Pass =
    | Idle
    | Listing
    | Judging(listed: Runs, candidate: RunId, rest: seq<RunId>)
    | Promoting(call: Call)

  // One durable agent.completed / agent.failed / agent.cancelled event.
  datatype Settlement = Settlement(run: RunId, status: Status, classification: Option<Classification>)

  datatype State = State(
    rows: Runs,
    pendingRuns: set<RunId>,
    activeAdapters: set<RunId>,
    cancelRequested: set<RunId>,
    failStopIntents: map<RunId, Classification>,
    inFlightLaunches: set<RunId>,
    launches: map<Call, Launch>,
    resumes: map<Call, RunId>,
    cancels: map<Call, RunId>,
    adapterlessCancels: set<RunId>,
    failStops: map<RunId, FailStop>,
    pass: Pass,
    advanceAgain: bool,
    // History: how often scheduleQueueAdvance ran, that number at the last
    // successful listing, and every terminal event written.
    wakeUps: nat,
    wakeUpsAtListing: nat,
    settlements: seq<Settlement>)

  datatype StopOutcome = Stopped | TimedOut | NotFound | OtherFailure

  datatype Label =
    | Start(call: Call, run: RunId, spec: Spec, initialized: bool)
    | Resume(call: Call, run: RunId)
    | ResumeReturned(call: Call, profileOk: bool)
    | LaunchStarted(call: Call, ok: bool, classification: Option<Classification>)
    | LaunchIdentified(call: Call)
    | LaunchStopped(call: Call)
    | Exited(run: RunId, cleanExit: bool, classification: Option<Classification>)
    | Cancel(call: Call, run: RunId)
    | CancelReturned(call: Call, ok: bool)
    | AdapterlessReturned(run: RunId)
    | FailAndStop(run: RunId, intent: Classification, processManager: bool)
    | FailStopStopped(run: RunId, outcome: StopOutcome)
    | FailStopProbed(run: RunId, alive: bool)
    | PassListed(order: seq<RunId>)
    | PassListFailed
    | PassJudged(call: Call, limitRead: bool)

  // scheduleQueueAdvance: start a pass, or ask the running one to scan again.
  function Wake(s: State): State {
    s.(wakeUps := s.wakeUps + 1,
       pass := if s.pass.Idle? then Listing else s.pass,
       advanceAgain := !s.pass.Idle?)
  }

  // A terminal status written to a row; the classification is kept when none is given.
  function SettleRow(rows: Runs, r: RunId, status: Status, classification: Option<Classification>): Runs {
    if r !in rows then rows
    else rows[r := rows[r].(
      status := status,
      classification := if classification.Some? then classification else rows[r].classification)]
  }

  function LeaveQueue(rows: Runs, r: RunId): Runs {
    if r in rows then rows[r := rows[r].(queuedReason := None)] else rows
  }

  // Writes a terminal event and the terminal row.
  function Settle(s: State, r: RunId, status: Status, classification: Option<Classification>): State {
    s.(settlements := s.settlements + [Settlement(r, status, classification)],
       rows := SettleRow(s.rows, r, status, classification))
  }

  // settleFailedStop (824-860).
  function SettleFailedStop(s: State, r: RunId, classification: Classification): State {
    Wake(Settle(s, r, Failed, Some(classification)).(
      rows := LeaveQueue(SettleRow(s.rows, r, Failed, Some(classification)), r),
      activeAdapters := s.activeAdapters - {r},
      cancelRequested := s.cancelRequested - {r},
      failStopIntents := s.failStopIntents - {r}))
  }

  // launch and launchInner up to the first await (862-909).
  function BeginLaunch(s: State, r: RunId, call: Call, caller: Caller): State
    requires r in s.rows
  {
    var seen := s.rows[r].status;
    s.(rows := if seen.Queued? then s.rows[r := s.rows[r].(status := Preparing, queuedReason := None)] else s.rows,
       activeAdapters := s.activeAdapters + {r},
       inFlightLaunches := s.inFlightLaunches + {r},
       launches := s.launches[call := Launch(r, Starting, caller, seen)])
  }

  // What follows a launch: start wakes the queue when the launch failed, the
  // queue pass lists again.
  function EndLaunch(s: State, call: Call, ok: bool): State
    requires call in s.launches
  {
    var l := s.launches[call];
    var wakes := l.caller.ByStart? && !ok;
    s.(launches := s.launches - {call},
       inFlightLaunches := s.inFlightLaunches - {l.run},
       wakeUps := if wakes then s.wakeUps + 1 else s.wakeUps,
       pass := if l.caller.ByQueue? || (wakes && s.pass.Idle?) then Listing else s.pass,
       advanceAgain := if wakes then !s.pass.Idle? else s.advanceAgain)
  }

  // The row terminal while the launch was suspended: drop the binding, stop the process.
  function AbandonLaunch(s: State, call: Call): State
    requires call in s.launches
  {
    var l := s.launches[call];
    s.(activeAdapters := s.activeAdapters - {l.run}, launches := s.launches[call := l.(stage := Stopping)])
  }

  function EntryReason(env: Env, rows: Runs, spec: Spec): Option<QueuedReason> {
    QueueEntryReason(ListActive(rows),
      HasCapacity(RunningForLimits(ListActive(rows)), spec, env.policy(spec.workspaceId), env.LimitFor(spec.accountProfileId)))
  }

  // The common end of start and resume: the row is written queued, with its
  // reason, or preparing, and the run waits or is launched.
  function Enter(s: State, call: Call, r: RunId, spec: Spec, caller: Caller, reason: Option<QueuedReason>): State {
    if reason.Some? then
      Wake(s.(rows := s.rows[r := Run(spec, Queued, reason, false, None)], pendingRuns := s.pendingRuns + {r}))
    else
      BeginLaunch(s.(rows := s.rows[r := Run(spec, Preparing, None, false, None)]), r, call, caller)
  }

  // start, from the policy read to the launch or the queue entry (1892-2106).
  function StartSegment(env: Env, s: State, call: Call, r: RunId, spec: Spec, initialized: bool): State {
    var listed := ListActive(s.rows);
    var active := RunningForLimits(listed);
    if r in s.rows || UnisolatedWriteConflict(active, spec) || WorktreeRunConflict(active, spec.worktreeId, None) || !initialized then s
    else
      Enter(s, call, r, spec, ByStart, EntryReason(env, s.rows, spec))
  }

  // resume after detection: the recheck (2180-2190), then either the profile
  // read (2210) or straight on.
  function ResumeSegment(env: Env, s: State, call: Call, r: RunId): State {
    if r !in s.rows || !s.rows[r].status.Interrupted? then s
    else if s.rows[r].spec.accountProfileId.None? then ResumeCommit(env, s, call, r)
    else s.(resumes := s.resumes[call := r])
  }

  // resume from the listing to the launch or the queue entry (2278-2446).
  function ResumeCommit(env: Env, s: State, call: Call, r: RunId): State {
    if r !in s.rows then s
    else
      var spec := s.rows[r].spec;
      var listed := ListActive(s.rows);
      var active := RunningForLimits(listed);
      if UnisolatedWriteConflict(active, spec) || WorktreeRunConflict(active, spec.worktreeId, Some(r)) then s
      else
        Enter(s, call, r, spec, ByResume, EntryReason(env, s.rows, spec))
  }

  // finishFailed (780-815): writes the row without reading it again.
  function FinishFailed(s: State, r: RunId, classification: Option<Classification>): State {
    Settle(s, r, Failed, classification).(activeAdapters := s.activeAdapters - {r})
  }

  // adapter.start returned (910-929).
  function LaunchStartedSegment(s: State, call: Call, ok: bool, classification: Option<Classification>): State
    requires call in s.launches
  {
    var l := s.launches[call];
    var r := l.run;
    if !ok then EndLaunch(FinishFailed(s, r, classification), call, r in s.rows)
    else if r in s.rows && s.rows[r].status.Terminal() then AbandonLaunch(s, call)
    else s.(launches := s.launches[call := l.(stage := Identifying)])
  }

  // The process identity is known (946-991).
  function LaunchIdentifiedSegment(s: State, call: Call): State
    requires call in s.launches
  {
    var l := s.launches[call];
    var r := l.run;
    if r !in s.rows then EndLaunch(s, call, false)
    else if s.rows[r].status.Terminal() then AbandonLaunch(s, call)
    else EndLaunch(s.(rows := s.rows[r := s.rows[r].(status := Running, hasProcess := true)]), call, true)
  }

  // The process.exited handler (1461-1555).
  function ExitedSegment(s: State, r: RunId, cleanExit: bool, classification: Option<Classification>): State {
    if r !in s.activeAdapters then s
    else
      var failStop := if r in s.failStopIntents then Some(s.failStopIntents[r]) else None;
      var status :=
        if failStop.Some? then Failed
        else if r in s.cancelRequested then Cancelled
        else if cleanExit then Completed else Failed;
      var found :=
        if failStop.Some? then failStop else if status.Failed? then classification else None;
      var s1 := Settle(s, r, status, found);
      Wake(s1.(
        failStopIntents := s.failStopIntents - {r},
        cancelRequested := s.cancelRequested - {r},
        activeAdapters := s.activeAdapters - {r}))
  }

  // cancel of a queued run (2480-2503).
  function CancelQueued(s: State, r: RunId): State {
    Wake(Settle(s, r, Cancelled, None).(
      rows := LeaveQueue(SettleRow(s.rows, r, Cancelled, None), r),
      pendingRuns := s.pendingRuns - {r}))
  }

  // cancel up to its await (2475-2530).
  function CancelSegment(s: State, call: Call, r: RunId): State {
    if r !in s.rows || s.rows[r].status.Terminal() then s
    else if s.rows[r].status.Queued? then
      CancelQueued(s, r)
    else if r !in s.activeAdapters then s.(adapterlessCancels := s.adapterlessCancels + {r})
    else s.(cancelRequested := s.cancelRequested + {r}, cancels := s.cancels[call := r])
  }

  // adapter.cancel returned (2531-2556).
  function CancelReturnedSegment(s: State, call: Call, ok: bool): State
    requires call in s.cancels
  {
    var r := s.cancels[call];
    var s1 := s.(cancels := s.cancels - {call});
    if !ok then s1.(cancelRequested := s.cancelRequested - {r})
    else if r in s.rows && s.rows[r].status.Terminal() then s1
    else
      var s2 := Settle(s1, r, Cancelled, None);
      s2.(cancelRequested := s.cancelRequested - {r}, activeAdapters := s.activeAdapters - {r})
  }

  // settleAdapterlessCancel after its awaits (1633-1648): no second read of the row.
  function AdapterlessSegment(s: State, r: RunId): State {
    Wake(Settle(s.(adapterlessCancels := s.adapterlessCancels - {r}), r, Cancelled, None))
  }

  // failAndStop up to its await (1655-1712).
  function FailStopSegment(s: State, r: RunId, classification: Classification, processManager: bool): State {
    if r in s.failStops || r !in s.rows || s.rows[r].status.Terminal() then s
    else if s.rows[r].status.Queued? then
      SettleFailedStop(s.(pendingRuns := s.pendingRuns - {r}), r, classification)
    else if s.rows[r].status.Preparing? && !s.rows[r].hasProcess && r in s.inFlightLaunches then s
    else if s.rows[r].hasProcess && !processManager then s.(failStopIntents := s.failStopIntents - {r})
    else
      var stage := if s.rows[r].hasProcess then StoppingProcess else ProbingSurvivor;
      s.(failStopIntents := s.failStopIntents[r := classification],
         failStops := s.failStops[r := FailStop(stage, classification)])
  }

  // processes.stop returned (1713-1745).
  function FailStopStoppedSegment(s: State, r: RunId, outcome: StopOutcome): State
    requires r in s.failStops
  {
    var f := s.failStops[r];
    match outcome
    case Stopped =>
      var s1 := s.(failStops := s.failStops - {r});
      if r !in s.rows || s.rows[r].status.Terminal() then s1 else SettleFailedStop(s1, r, f.classification)
    case NotFound =>
      s.(failStops := s.failStops[r := f.(stage := ProbingSurvivor)])
    case _ =>
      s.(failStops := s.failStops - {r}, failStopIntents := s.failStopIntents - {r})
  }

  // terminateSurvivorProcess returned (1747-1778).
  function FailStopProbedSegment(s: State, r: RunId, alive: bool): State
    requires r in s.failStops
  {
    var s1 := s.(failStops := s.failStops - {r});
    if alive || r !in s.rows || s.rows[r].status.Terminal() then s1.(failStopIntents := s.failStopIntents - {r})
    else SettleFailedStop(s1, r, s.failStops[r].classification)
  }

  // The scan of advanceQueue up to its next await: the next candidate that has
  // a pending request, or the end of the pass (1014-1017, 1052-1064).
  function NextCandidate(s: State, listed: Runs, rest: seq<RunId>): State {
    if rest == [] then
      if s.advanceAgain then s.(advanceAgain := false, pass := Listing) else s.(pass := Idle)
    else if rest[0] in s.pendingRuns then s.(pass := Judging(listed, rest[0], rest[1..]))
    else NextCandidate(s, listed, rest[1..])
  }

  // listActive answered (1007-1013); `order` is the order of its queued rows.
  function PassListedSegment(s: State, order: seq<RunId>): State {
    NextCandidate(s.(wakeUpsAtListing := s.wakeUps), ListActive(s.rows), order)
  }

  // updateQueuedReason (579-588): `known` is the reason in the listing.
  function UpdateQueuedReason(s: State, r: RunId, known: Option<QueuedReason>, reason: QueuedReason): State {
    if known == Some(reason) || r !in s.rows then s
    else s.(rows := s.rows[r := s.rows[r].(queuedReason := Some(reason))])
  }

  // The profile limit of the candidate is known (1025-1056).
  function PassJudgedSegment(env: Env, s: State, call: Call, limitRead: bool): State
    requires s.pass.Judging? && s.pass.candidate in s.pass.listed
  {
    var Judging(listed, c, rest) := s.pass;
    var run := listed[c];
    if !limitRead then NextCandidate(s, listed, rest)
    else
      var skip := SkipReason(env, RunningForLimits(listed), c, run.spec);
      if skip.Some? then NextCandidate(UpdateQueuedReason(s, c, run.queuedReason, skip.value), listed, rest)
      else
        var s1 := s.(pendingRuns := s.pendingRuns - {c});
        if c !in s.rows then s1.(pass := Listing)
        else BeginLaunch(s1, c, call, ByQueue).(pass := Promoting(call))
  }

  // `order` lists the queued rows, each once.
  ghost predicate Enumerates(order: seq<RunId>, rows: Runs) {
    && (forall r :: r in order <==> r in rows && rows[r].status.Queued?)
    && NoDuplicates(order)
  }

  /** Which segments can run: fresh call numbers for new calls, suspended calls for the rest. */
  ghost predicate Enabled(s: State, l: Label) {
    match l
    case Start(call, _, _, _) => call !in s.launches
    case Resume(call, _) => call !in s.resumes && call !in s.launches
    case ResumeReturned(call, _) => call in s.resumes && call !in s.launches
    case LaunchStarted(call, _, _) => call in s.launches && s.launches[call].stage.Starting?
    case LaunchIdentified(call) => call in s.launches && s.launches[call].stage.Identifying?
    case LaunchStopped(call) => call in s.launches && s.launches[call].stage.Stopping?
    case Exited(_, _, _) => true
    case Cancel(call, _) => call !in s.cancels
    case CancelReturned(call, _) => call in s.cancels
    case AdapterlessReturned(r) => r in s.adapterlessCancels
    case FailAndStop(_, _, _) => true
    case FailStopStopped(r, _) => r in s.failStops && s.failStops[r].stage.StoppingProcess?
    case FailStopProbed(r, _) => r in s.failStops && s.failStops[r].stage.ProbingSurvivor?
    case PassListed(order) => s.pass.Listing? && Enumerates(order, s.rows)
    case PassListFailed => s.pass.Listing?
    case PassJudged(call, _) => s.pass.Judging? && s.pass.candidate in s.pass.listed && call !in s.launches
  }

  ghost function Apply(env: Env, s: State, l: Label): State
    requires Enabled(s, l)
  {
    match l
    case Start(call, r, spec, initialized) => StartSegment(env, s, call, r, spec, initialized)
    case Resume(call, r) => ResumeSegment(env, s, call, r)
    case ResumeReturned(call, profileOk) =>
      var s1 := s.(resumes := s.resumes - {call});
      if profileOk then ResumeCommit(env, s1, call, s.resumes[call]) else s1
    case LaunchStarted(call, ok, classification) => LaunchStartedSegment(s, call, ok, classification)
    case LaunchIdentified(call) => LaunchIdentifiedSegment(s, call)
    case LaunchStopped(call) => EndLaunch(s, call, true)
    case Exited(r, cleanExit, classification) => ExitedSegment(s, r, cleanExit, classification)
    case Cancel(call, r) => CancelSegment(s, call, r)
    case CancelReturned(call, ok) => CancelReturnedSegment(s, call, ok)
    case AdapterlessReturned(r) => AdapterlessSegment(s, r)
    case FailAndStop(r, classification, processManager) => FailStopSegment(s, r, classification, processManager)
    case FailStopStopped(r, outcome) => FailStopStoppedSegment(s, r, outcome)
    case FailStopProbed(r, alive) => FailStopProbedSegment(s, r, alive)
    case PassListed(order) => PassListedSegment(s, order)
    case PassListFailed => s.(pass := Idle)
    case PassJudged(call, limitRead) => PassJudgedSegment(env, s, call, limitRead)
  }

  /** A run of the manager: every label enabled where it is taken. */
  ghost predicate IsRun(env: Env, s: State, trace: seq<Label>)
    decreases |trace|
  {
    trace == [] || (Enabled(s, trace[0]) && IsRun(env, Apply(env, s, trace[0]), trace[1..]))
  }

  ghost function After(env: Env, s: State, trace: seq<Label>): State
    requires IsRun(env, s, trace)
    decreases |trace|
  {
    if trace == [] then s else After(env, Apply(env, s, trace[0]), trace[1..])
  }

  /** `good` holds of every step of a run, in the state in which it is taken. */
  ghost predicate Always(env: Env, s: State, trace: seq<Label>, good: (State, Label) -> bool)
    requires IsRun(env, s, trace)
    decreases |trace|
  {
    trace == [] || (good(s, trace[0]) && Always(env, Apply(env, s, trace[0]), trace[1..], good))
  }

  /** A fresh process: rows left by an earlier one, nothing in memory. */
  ghost predicate Initial(env: Env, s: State) {
    && Safe(env, RunningForLimits(ListActive(s.rows)))
    && (forall r | r in s.rows :: !s.rows[r].status.Queued?)
    && s == State(s.rows, {}, {}, {}, map[], {}, map[], map[], map[], {}, map[], Idle, false, 0, 0, [])
  }

  function Live(s: State): Runs {
    RunningForLimits(ListActive(s.rows))
  }
}
