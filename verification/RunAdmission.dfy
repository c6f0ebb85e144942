/**
 * The pure admission rules of the agent manager (agent-manager.ts 317-394):
 * which runs count against a limit, when a run conflicts with another one, and
 * why a run has to wait.  A listing is a finite map from run ids to rows; the
 * rules only count and search, so the order of a listing does not matter here.
 */
module RunAdmission {
  import opened Common

  type RunId = string
  type Classification = string

  // The statuses the manager and startup reconciliation write.  The remaining
  // names of the status enumeration are never written to a row.
  datatype Status = Queued | Preparing | Running | Completed | Failed | Cancelled | Interrupted {
    predicate Terminal() { Completed? || Failed? || Cancelled? || Interrupted? }

    // A run that holds a concurrency slot.
    predicate Live() { Preparing? || Running? }
  }

  datatype ApprovalMode = ReadOnly | Manual | SafeAuto | FullAuto

  datatype QueuedReason = Capacity | DirectoryBusy | WorktreeBusy | Fifo

  // What admission looks at; fixed when the row is created.
  datatype Spec = Spec(
    workspaceId: string,
    worktreeId: Option<string>,
    agentType: string,
    accountProfileId: Option<string>,
    approvalMode: Option<ApprovalMode>)
  {
    // A run that may write the workspace directory itself.
    predicate UnisolatedWriter() { worktreeId.None? && approvalMode != Some(ReadOnly) }
  }

  datatype Run = Run(
    spec: Spec,
    status: Status,
    queuedReason: Option<QueuedReason>,
    hasProcess: bool,
    classification: Option<Classification>)

  type Runs = map<RunId, Run>

  datatype Concurrency = Concurrency(maxGlobalRuns: nat, maxRunsPerWorkspace: nat, maxRunsPerAgent: nat)

  /**
   * The configuration, fixed over a run: a policy per workspace and an optional
   * limit per account profile.  Policies are layered, so workspaces may differ;
   * the two ceilings bound the limits that are not local to one workspace.
   */
  datatype Env = Env(
    policy: string -> Concurrency,
    profileLimit: string -> Option<nat>,
    globalCeiling: nat,
    agentCeiling: nat)
  {
    ghost predicate Valid() {
      forall w ::
        && policy(w).maxGlobalRuns <= globalCeiling
        && policy(w).maxRunsPerAgent <= agentCeiling
    }

    function LimitFor(profile: Option<string>): Option<nat> {
      if profile.None? then None else profileLimit(profile.value)
    }
  }

  // listActive(): the rows in status running, preparing or queued.
  function ListActive(rows: Runs): Runs {
    map r | r in rows && !rows[r].status.Terminal() :: rows[r]
  }

  function RunningForLimits(runs: Runs): Runs {
    map r | r in runs && !runs[r].status.Queued? :: runs[r]
  }

  predicate AnyQueued(runs: Runs) {
    exists r :: r in runs && runs[r].status.Queued?
  }

  function QueueEntryReason(runs: Runs, capacityAvailable: bool): Option<QueuedReason> {
    if AnyQueued(runs) then Some(Fifo) else if capacityAvailable then None else Some(Capacity)
  }

  predicate UnisolatedWriteConflict(runs: Runs, spec: Spec) {
    && spec.UnisolatedWriter()
    && exists r :: r in runs && runs[r].spec.workspaceId == spec.workspaceId && runs[r].spec.UnisolatedWriter()
  }

  predicate WorktreeRunConflict(runs: Runs, worktreeId: Option<string>, exclude: Option<RunId>) {
    && worktreeId.Some?
    && exists r :: r in runs && runs[r].spec.worktreeId == worktreeId && Some(r) != exclude
  }

  function InWorkspace(runs: Runs, w: string): set<RunId> {
    set r | r in runs && runs[r].spec.workspaceId == w
  }

  function OfAgent(runs: Runs, a: string): set<RunId> {
    set r | r in runs && runs[r].spec.agentType == a
  }

  function OfProfile(runs: Runs, p: string): set<RunId> {
    set r | r in runs && runs[r].spec.accountProfileId == Some(p)
  }

  predicate HasCapacity(runs: Runs, spec: Spec, policy: Concurrency, profileLimit: Option<nat>) {
    && (spec.accountProfileId.Some? && profileLimit.Some? ==>
          |OfProfile(runs, spec.accountProfileId.value)| < profileLimit.value)
    && |runs| < policy.maxGlobalRuns
    && |InWorkspace(runs, spec.workspaceId)| < policy.maxRunsPerWorkspace
    && |OfAgent(runs, spec.agentType)| < policy.maxRunsPerAgent
  }

  // Why the queue pass leaves a candidate waiting (agent-manager.ts 1035-1047).
  function SkipReason(env: Env, active: Runs, candidate: RunId, spec: Spec): Option<QueuedReason> {
    if UnisolatedWriteConflict(active, spec) then Some(DirectoryBusy)
    else if WorktreeRunConflict(active, spec.worktreeId, Some(candidate)) then Some(WorktreeBusy)
    else if !HasCapacity(active, spec, env.policy(spec.workspaceId), env.LimitFor(spec.accountProfileId)) then Some(Capacity)
    else None
  }

  /** What the limits and the two isolation rules promise about the runs that hold a slot. */
  ghost predicate Safe(env: Env, live: Runs) {
    && |live| <= env.globalCeiling
    && (forall w :: |InWorkspace(live, w)| <= env.policy(w).maxRunsPerWorkspace)
    && (forall a :: |OfAgent(live, a)| <= env.agentCeiling)
    && (forall p :: env.profileLimit(p).Some? ==> |OfProfile(live, p)| <= env.profileLimit(p).value)
    && Isolated(live)
  }

  // No worktree hosts two runs, no workspace has two unisolated writers.
  ghost predicate Isolated(live: Runs) {
    forall r, q | r in live && q in live && r != q ::
      && (live[r].spec.worktreeId.Some? ==> live[r].spec.worktreeId != live[q].spec.worktreeId)
      && !(live[r].spec.UnisolatedWriter() && live[q].spec.UnisolatedWriter()
           && live[r].spec.workspaceId == live[q].spec.workspaceId)
  }

  // Every run of `live` is known to `active` with the same admission data.
  ghost predicate Covered(live: Runs, active: Runs) {
    forall r | r in live :: r in active && active[r].spec == live[r].spec
  }

  lemma CoveredCounts(live: Runs, active: Runs)
    requires Covered(live, active)
    ensures |live| <= |active|
    ensures forall w :: |InWorkspace(live, w)| <= |InWorkspace(active, w)|
    ensures forall a :: |OfAgent(live, a)| <= |OfAgent(active, a)|
    ensures forall p :: |OfProfile(live, p)| <= |OfProfile(active, p)|
  {
    SmallerSet(live.Keys, active.Keys);
    forall w { SmallerSet(InWorkspace(live, w), InWorkspace(active, w)); }
    forall a { SmallerSet(OfAgent(live, a), OfAgent(active, a)); }
    forall p { SmallerSet(OfProfile(live, p), OfProfile(active, p)); }
  }

  // Safety is inherited by fewer runs.
  lemma SafeShrinks(env: Env, live: Runs, live': Runs)
    requires Safe(env, live) && Covered(live', live)
    ensures Safe(env, live')
  {
    CoveredCounts(live', live);
  }

  // The admission checks passed on `active`, which covers everything live.
  ghost predicate Admitted(env: Env, active: Runs, exclude: Option<RunId>, spec: Spec) {
    && !UnisolatedWriteConflict(active, spec)
    && !WorktreeRunConflict(active, spec.worktreeId, exclude)
    && HasCapacity(active, spec, env.policy(spec.workspaceId), env.LimitFor(spec.accountProfileId))
  }

  lemma AddOne<T>(s: set<T>, s': set<T>, x: T)
    requires s' <= s + {x}
    ensures |s'| <= |s| + 1
    ensures x !in s' ==> |s'| <= |s|
  {
    if x in s' {
      SmallerSet(s', s + {x});
    } else {
      SmallerSet(s', s);
    }
  }

  /**
   * The step that makes stale decisions sound: a run admitted against a listing
   * keeps every limit as long as the runs holding a slot NOW are among those the
   * listing counted.
   */
  lemma AdmitKeepsSafe(env: Env, active: Runs, live: Runs, id: RunId, run: Run)
    requires env.Valid() && Safe(env, live)
    requires Covered(live, active) && id !in live
    requires Admitted(env, active, Some(id), run.spec)
    ensures Safe(env, live[id := run])
  {
    var live' := live[id := run];
    var s := run.spec;
    CoveredCounts(live, active);
    assert live'.Keys == live.Keys + {id};
    AddOne(live.Keys, live'.Keys, id);
    forall w ensures |InWorkspace(live', w)| <= env.policy(w).maxRunsPerWorkspace {
      AddOne(InWorkspace(live, w), InWorkspace(live', w), id);
    }
    forall a ensures |OfAgent(live', a)| <= env.agentCeiling {
      AddOne(OfAgent(live, a), OfAgent(live', a), id);
    }
    forall p | env.profileLimit(p).Some? ensures |OfProfile(live', p)| <= env.profileLimit(p).value {
      AddOne(OfProfile(live, p), OfProfile(live', p), id);
    }
    AdmitKeepsIsolated(active, live, id, run);
    hide Isolated, Covered, UnisolatedWriteConflict, WorktreeRunConflict, InWorkspace, OfAgent, OfProfile;
  }

  // The newcomer conflicts with nobody live.
  lemma AdmitKeepsIsolated(active: Runs, live: Runs, id: RunId, run: Run)
    requires Isolated(live) && Covered(live, active) && id !in live
    requires !UnisolatedWriteConflict(active, run.spec) && !WorktreeRunConflict(active, run.spec.worktreeId, Some(id))
    ensures Isolated(live[id := run])
  {
    var s := run.spec;
    forall q | q in live
      ensures s.worktreeId.Some? ==> s.worktreeId != live[q].spec.worktreeId
      ensures !(s.UnisolatedWriter() && live[q].spec.UnisolatedWriter() && s.workspaceId == live[q].spec.workspaceId)
    {
      assert q in active && active[q].spec == live[q].spec;
    }
  }

  // Excluding a run that is not in the listing makes no difference.
  lemma ExcludeAbsent(active: Runs, worktreeId: Option<string>, id: RunId)
    requires id !in active
    ensures WorktreeRunConflict(active, worktreeId, None) == WorktreeRunConflict(active, worktreeId, Some(id))
  {
  }
}
