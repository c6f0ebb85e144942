# Verification of Teskra's orchestration core

Teskra runs coding agents side by side: it queues, launches, cancels and settles
agent runs, validates workflow graphs, parses message directives, tails progress
files, keeps durable run logs, asks its user for decisions, and merges layered
configuration. This project models the logic behind those promises in Dafny and
proves properties of the model. Nothing of the original program is executed; the
claims below are what Dafny's verifier establishes about the model
(`dafny verify dfyconfig.toml`).

## How the model is built

- **State machines.** The services that interleave at `await` points (the agent
  manager, the decision inbox, the run watchdog, the worker pool) are transition
  systems. Every async function is cut at its awaits; a label is one synchronous
  segment together with what the outside world answered, and any number of calls
  may overlap in any order. Main results hold for every state such a system can
  reach, over executions of any length.
- **Objects.** Where the source updates fields, maps and sets in place, a class
  with those fields has one method per segment, proved to take exactly the step of
  the transition system (`AgentManager.Manager`, `DecisionService.Service`,
  `RunWatchdogService.Service`, `RunLogFiles.Store`, `ProgressFollower.Follower`,
  `CommandExtraction.CommandExtractor`, `MessageDirectives.SlashState`,
  `WorkflowCycles.CycleSearch`, `ConfigMerge.SourceRecord`, `WorkerPool.MapRun`).
  Loops of the source are loops, proved against a recursive specification.
- **Parameters.** The file system is a content with a durable part; listings come
  in an arbitrary order; clocks, JSON, regular expressions, process control and the
  answers of other services are arbitrary values. Of the regular expressions the
  proofs use only that an empty line yields no command.

| files | what they model |
|---|---|
| `RunAdmission`, `RunLifecycle` | the admission rules and the segments of the agent manager |
| `AdmissionSafety`, `RunQueue`, `RunSettlement`, `RunIntents`, `RunReasons` | limits, wake-ups, settling exactly once, fail-and-stop intents, queue reasons |
| `RunFindings`, `RunExecutions` | executions that break those promises |
| `QueuePasses`, `AgentManager` | the flag that keeps queue passes apart, and the manager as an object |
| `Workflow`, `WorkflowCycles`, `WorkflowValidation` | the workflow graph validator |
| `TextLines`, `DirectiveTokens`, `MessageDirectives`, `DirectiveRoundTrips`, `ModeDirective` | message directives |
| `ProgressFollower`, `ProgressSchedules` | the progress file tailer |
| `CommandExtraction`, `ChunkInvariance` | command extraction from terminal output |
| `LogFile`, `RunLogStore`, `RunLogFiles` | durable run logs |
| `Decisions`, `DecisionRuns`, `DecisionService` | the decision inbox |
| `ConfigMerge`, `ConfigProvenance` | layered configuration |
| `GitParsers`, `GitRoundTrips` | git's NUL-separated formats |
| `RunWatchdog`, `RunWatchdogService` | the run watchdog |
| `WorkerPool`, `Disagreements` | bounded concurrency and review disagreements |

## What is assumed

- Concurrency policies, per workspace, and per-profile limits do not change during
  an execution; the global and per-agent limits of different workspaces are bounded
  by common ceilings.
- Rows become `interrupted` only through startup reconciliation, which the
  application awaits before it accepts calls, so such rows exist only at the start.
  The statuses `created`, `waiting_*` and `reviewing` are never written to a run row.
- Repository writes of the agent manager succeed.
- No run is resumed while a resume of the same run is in flight. The model shows
  that the limits fail without this, see below.

## Where the code does less than it promises

Each point is a proved statement about the model, with the exact condition where
one is given.

- Two overlapping resumes of one run can put two runs into one slot
  (`RunFindings.OverlappingResumesBreakTheLimit`); without overlap the limits hold.
- A queued run cancelled while the queue pass reads its profile limit is launched
  all the same, and its exit rewrites the cancelled row
  (`RunExecutions.CancelledRunIsLaunched`). This is the only way a binding can
  outlive its row (`RunSettlement.StaleBindingExactly`), and it needs a cancel or
  stop during that read (`RunIntents.CarefulIsTame`).
- A failing launch and an adapterless cancel write their terminal row without
  reading it again (`RunExecutions.FailedStartAfterCancel`,
  `RunExecutions.AdapterlessCancelOverwritesStop`); a settled run gets a second
  terminal event exactly there and in an exit of such a stale binding
  (`RunSettlement.SettledTwiceExactly`).
- A skip reason can be written onto a row that left the queue
  (`RunExecutions.CancelledRunShowsReason`), exactly in a judgement of a settled
  candidate whose verdict differs from the listed reason
  (`RunReasons.LateReasonExactly`, `RunReasons.OnlyWaitingShowIff`).
- A failing listing loses the wake-ups that arrived since the last one that
  succeeded (`RunQueue.FailedListingLosesWakeUps`).
- `/mode` accepts, besides its two modes, exactly the names every JavaScript object
  inherits, such as `constructor`, because its table is an object literal; such a
  value sets no real mode (`ModeDirective.ModeAcceptedIff`,
  `ModeDirective.ModeMessageIff`, `ModeDirective.ConstructorIsAMode`).
- `@id text` on one line drops the blanks at the end of the prompt's first line
  (`DirectiveRoundTrips.MentionKeepsPromptIff`).
- A finish that meets an unterminated progress line hands it on; if the file then
  continues, the rest of the line is a line of its own
  (`ProgressSchedules.CutKeepsLinesIff`).
- Command extraction sees an extra empty line where a chunk ends inside a CRLF
  pair, which matters for rules with `afterMarker` (`ChunkInvariance.InvariantIff`).
- When the fsync of a log rollback fails after a complete write, the tracked size is
  stale, and the next failing append fills the file up with zero bytes
  (`LogFile.StaleSizePadsTheFile`, `LogFile.FailedAppendUnchangedIff`).
- An `undefined` entry of a config override changes nothing but is recorded as the
  source of the value or object at its path
  (`ConfigProvenance.UndefinedClaimsTheSource`; exactly when, for one layer and for
  all, `ConfigProvenance.AddLayerHonestIff` and
  `ConfigProvenance.SourcesAreHonestIff`); a leaf in one layer that hides an object
  below it makes saving a patch differ from stacking it
  (`ConfigProvenance.SavingStacksIff`).
- A git rename source that starts with `#` and holds a line break is read as further
  records (`GitRoundTrips.GhostEntry`; exactly when this does harm,
  `GitRoundTrips.TransparentIff`); numstat drops plain paths with a line break
  (`GitRoundTrips.KeptAllIff`).

## Model

| member | source | states |
|---|---|---|
| `RunAdmission.CoveredCounts` | apps/desktop/src/main/agents/agent-manager.ts:369-394 | if every live run is known to a listing with the same admission data, no count a limit compares (global, workspace, agent, profile) is larger for the live runs than for the listing |
| `RunAdmission.AdmitKeepsSafe` | apps/desktop/src/main/agents/agent-manager.ts:320-394 | a run that passes the conflict and capacity checks against a listing may be added to the runs live now without breaking any limit or isolation rule, as long as the listing covers the live runs, however stale it is |
| `RunAdmission.AdmitKeepsIsolated` | apps/desktop/src/main/agents/agent-manager.ts:337-363 | the newcomer shares its worktree with no live run and is not a second unisolated writer of its workspace |
| `RunAdmission.SafeShrinks` | apps/desktop/src/main/agents/agent-manager.ts:369-394 | ending or settling runs never breaks a limit |
| `RunAdmission.ExcludeAbsent` | apps/desktop/src/main/agents/agent-manager.ts:356-363 | excluding the resumed run itself from the worktree check changes nothing when the run is not in the listing |
| `AdmissionSafety.EnteringKeepsListing` | apps/desktop/src/main/agents/agent-manager.ts:329-335 | the key of the stale-decision argument: a newcomer cannot take a slot while a listed run is still queued, so the live runs stay covered by the listing a pass holds |
| `AdmissionSafety.EnterKeepsAdmission` | apps/desktop/src/main/agents/agent-manager.ts:1941-1981 | the common end of start and resume keeps the limits, the isolation rules and the coverage of a held listing |
| `AdmissionSafety.StartKeepsAdmission` | apps/desktop/src/main/agents/agent-manager.ts:1899-1981 | the list-check-insert segment of start keeps the admission invariant for every request |
| `AdmissionSafety.ResumeKeepsAdmission` | apps/desktop/src/main/agents/agent-manager.ts:2280-2424 | the list-check-update segment of resume keeps it when the row it rewrites is still interrupted |
| `AdmissionSafety.ListingKeepsAdmission` | apps/desktop/src/main/agents/agent-manager.ts:1007-1013 | a fresh listing of the queue pass covers everything live |
| `AdmissionSafety.NextCandidateStays` | apps/desktop/src/main/agents/agent-manager.ts:1014-1064 | moving on within a scan changes nothing but the position of the pass |
| `AdmissionSafety.PromotionKeepsSafe` | apps/desktop/src/main/agents/agent-manager.ts:1035-1056 | promoting the candidate decided on a stale listing keeps every limit and isolation rule of the runs live now |
| `AdmissionSafety.PromotionKeepsAdmission` | apps/desktop/src/main/agents/agent-manager.ts:873-888 | the promotion with its launch keeps the whole admission invariant |
| `AdmissionSafety.JudgingKeepsAdmission` | apps/desktop/src/main/agents/agent-manager.ts:1025-1056 | skipping, failing to read a limit and promoting all keep it |
| `AdmissionSafety.MovesKeepAdmission` | apps/desktop/src/main/agents/agent-manager.ts:780-860 | segments that only settle, cancel or move bookkeeping keep it, terminal rewrites included |
| `AdmissionSafety.SegmentKeepsAdmission` | apps/desktop/src/main/agents/agent-manager.ts:862-2556 | every segment of the manager keeps the admission invariant, given that a resume finds its row still interrupted |
| `AdmissionSafety.LimitsHoldInEveryRun` | apps/desktop/src/main/agents/agent-manager.ts:320-394 | safety over whole executions: in every interleaving the runs holding a slot respect the global, workspace, agent and profile limits, no worktree has two and no workspace two unisolated writers |
| `RunQueue.SegmentKeepsWakeUps` | apps/desktop/src/main/agents/agent-manager.ts:994-1074 | no segment but a failing listing loses a wake-up: a wake-up that lands in a pass makes it list again |
| `RunQueue.NoRunLosesAWakeUp` | apps/desktop/src/main/agents/agent-manager.ts:994-1074 | over every execution whose listings succeed, at rest and in a pass that will not scan again the last listing is younger than every scheduleQueueAdvance |
| `RunQueue.FailedListingLosesWakeUps` | apps/desktop/src/main/agents/agent-manager.ts:1007-1011 | a failing listing ends the pass and loses exactly the wake-ups since the last listing that succeeded |
| `RunQueue.SegmentKeepsQueue` | apps/desktop/src/main/agents/agent-manager.ts:579-588 | only its own judgement rewrites the row of a waiting run, and nobody enters the queue but a new or an interrupted run |
| `RunQueue.JudgementStoresItsReason` | apps/desktop/src/main/agents/agent-manager.ts:1035-1050 | a judged candidate that still waits shows exactly the reason just computed, although the write is skipped when the reason in the listing is the same |
| `RunQueue.SegmentKeepsReasons` | apps/desktop/src/main/agents/agent-manager.ts:579-588 | candidates still to be judged show the reason they were listed with, which is what makes skipping the write sound |
| `RunQueue.EveryRunKeepsReasons` | apps/desktop/src/main/agents/agent-manager.ts:579-588 | the same over every execution |
| `QueuePasses.PassesNeverOverlap` | apps/desktop/src/main/agents/agent-manager.ts:994-1067 | in every interleaving of wake-ups and of the segments of whatever passes are in flight, at most one pass is, and the flag is up exactly then |
| `QueuePasses.AdvanceIsWake` | apps/desktop/src/main/agents/agent-manager.ts:994-1001 | a wake-up starts the one pass of the transition system, or asks it to scan again |
| `QueuePasses.ScannedIsNext` | apps/desktop/src/main/agents/agent-manager.ts:1014-1064 | the pass in flight scans as the transition system says |
| `RunSettlement.ExitedSettles` | apps/desktop/src/main/agents/agent-manager.ts:1461-1555 | an exit of a bound, unsettled run settles it, with the status an intent, a cancel request and the exit code decide in this order, writes its one terminal event and settles no other run; an exit of an unbound run changes nothing |
| `RunSettlement.CancelQueuedSettles` | apps/desktop/src/main/agents/agent-manager.ts:2480-2503 | cancelling a queued run settles it as cancelled with its one event and takes it out of the queue: no pending request, no reason |
| `RunSettlement.CancelFallbackSettles` | apps/desktop/src/main/agents/agent-manager.ts:2538-2547 | the fallback of cancel settles, and logs, a run that no exit event has settled |
| `RunSettlement.CancelReturnedSettles` | apps/desktop/src/main/agents/agent-manager.ts:2530-2556 | whatever came between, a cancel whose adapter call succeeded leaves the run settled: it settles and logs it if nothing else has, and writes nothing otherwise |
| `RunSettlement.AdapterlessSettles` | apps/desktop/src/main/agents/agent-manager.ts:1620-1648 | the adapterless cancel settles and logs its run unless the row was settled during its awaits |
| `RunSettlement.FailedStopSettles` | apps/desktop/src/main/agents/agent-manager.ts:824-860 | settleFailedStop settles an unsettled run as failed with its classification and logs it, once |
| `RunSettlement.FailStopSettles` | apps/desktop/src/main/agents/agent-manager.ts:1655-1712 | failAndStop up to its await settles and logs a queued run and takes it out of the pending requests; in every other case no row and no event is written |
| `RunSettlement.FailStopStoppedSettles` | apps/desktop/src/main/agents/agent-manager.ts:1713-1745 | after a successful stop the run is settled: here, with its event, if no exit event has, and otherwise nothing is written |
| `RunSettlement.FailStopProbedSettles` | apps/desktop/src/main/agents/agent-manager.ts:1747-1778 | after a dead survivor the run is settled: here, with its event, unless it was settled meanwhile, because the row is read again |
| `RunSettlement.FinishFailedSettles` | apps/desktop/src/main/agents/agent-manager.ts:780-815 | a failing launch settles and logs its run unless it was settled meanwhile |
| `RunSettlement.LaunchStartedSettles` | apps/desktop/src/main/agents/agent-manager.ts:909-929 | the guard after adapter.start never lets a launch touch a settled row |
| `RunSettlement.LaunchIdentifiedSettles` | apps/desktop/src/main/agents/agent-manager.ts:946-991 | the guard after the identity read never turns a settled row back to running |
| `RunSettlement.SegmentSettlesOnce` | apps/desktop/src/main/agents/agent-manager.ts:780-2556 | every segment but the three that overwrite either writes no terminal event and settles no run, or writes one and settles exactly its run, which was not settled before; settled rows keep their outcome |
| `RunSettlement.SettledTwiceExactly` | apps/desktop/src/main/agents/agent-manager.ts:780-815 | a settled run gets a second terminal event exactly in a failed start, an adapterless return or an exit of a run already settled |
| `RunSettlement.StaleBindingExactly` | apps/desktop/src/main/agents/agent-manager.ts:1025-1064 | a binding comes to outlive its row exactly when the queue pass promotes a candidate that was settled during its await |
| `RunSettlement.ExitsSettleOnce` | apps/desktop/src/main/agents/agent-manager.ts:1461-1463 | without such a binding an exit never meets a settled row |
| `RunSettlement.EveryInterleavingSettlesOnce` | apps/desktop/src/main/agents/agent-manager.ts:824-957 | over whole executions: with exits, cancels and fail-and-stops in any interleaving the log has exactly one terminal event for every run settled since the process began and none for any other, each with the outcome of its row, and settled rows never change |
| `RunSettlement.EveryRunSettlesOnce` | apps/desktop/src/main/agents/agent-manager.ts:1461-1527 | the same for executions without the three overwriting segments |
| `RunSettlement.LimitsHoldWithoutOverlappingResumes` | apps/desktop/src/main/agents/agent-manager.ts:2210-2424 | the limits hold in every execution in which no run is resumed while a resume of it is in flight |
| `RunIntents.IntentDecidesTheExit` | apps/desktop/src/main/agents/agent-manager.ts:1469-1502 | a fail-and-stop intent registered when the exit is delivered makes the row failed with exactly that classification, with one terminal event, and it stays so in every such execution |
| `RunIntents.IntentsAreUsedUp` | apps/desktop/src/main/agents/agent-manager.ts:1690-1778 | over every execution, overwriting segments included: no intent outlives its fail-and-stop on an unsettled run |
| `RunIntents.SegmentPends` | apps/desktop/src/main/agents/agent-manager.ts:1014-1017 | pending requests belong to waiting runs, and the candidate being judged still has its request unless it was cancelled or stopped |
| `RunIntents.CarefulIsTame` | apps/desktop/src/main/agents/agent-manager.ts:1025-1064 | when no cancel or stop falls into the limit read of its run, the queue pass promotes no settled candidate, so settling once needs conditions on the calls alone |
| `RunReasons.LateReasonExactly` | apps/desktop/src/main/agents/agent-manager.ts:579-588 | a segment leaves a reason on a row that does not wait exactly when it judges a candidate settled meanwhile, and the verdict differs from the listed reason |
| `RunReasons.OnlyWaitingShowIff` | apps/desktop/src/main/agents/agent-manager.ts:579-588 | over every execution: at the end only waiting rows show a reason exactly when no judgement was of that kind |
| `RunReasons.SparingIsNeverLate` | apps/desktop/src/main/agents/agent-manager.ts:1025-1050 | none is when no cancel or stop falls into the limit read of its run |
| `RunReasons.EveryRunShowsItsLastVerdict` | apps/desktop/src/main/agents/agent-manager.ts:1035-1050 | over every execution: a run that was skipped and still waits shows the reason computed in the last scan that judged it |
| `RunExecutions.CancelledRunIsLaunched` | apps/desktop/src/main/agents/agent-manager.ts:1025-1064 | from a fresh process, seven steps: a queued run is cancelled during the limit read, launched all the same, and settled again by its exit |
| `RunExecutions.CancelledRunShowsReason` | apps/desktop/src/main/agents/agent-manager.ts:579-588 | from a fresh process, seven steps: a run cancelled while it is judged ends cancelled with a queue reason |
| `RunExecutions.FailedStartAfterCancel` | apps/desktop/src/main/agents/agent-manager.ts:780-815 | from a fresh process, four steps: a failing start rewrites a cancelled row as failed |
| `RunExecutions.AdapterlessCancelOverwritesStop` | apps/desktop/src/main/agents/agent-manager.ts:1620-1648 | from a fresh process with a surviving run, five steps: an adapterless cancel rewrites a row that a fail-and-stop has settled |
| `RunFindings.OverlappingResumesBreakTheLimit` | apps/desktop/src/main/agents/agent-manager.ts:2210-2424 | a ten-step execution, from a fresh process, in which two overlapping resumes put two runs into one slot |
| `AgentManager.Manager.constructor` | apps/desktop/src/main/agents/agent-manager.ts:436-510 | a fresh manager over stored rows starts in an initial state |
| `AgentManager.Manager.ScheduleQueueAdvance` | apps/desktop/src/main/agents/agent-manager.ts:1070-1074 | with any pass in flight, advanceQueue up to its first await; at most one pass stays in flight |
| `AgentManager.Manager.WriteTerminal` | apps/desktop/src/main/agents/agent-manager.ts:1503-1521 | appends the terminal event and writes the terminal row |
| `AgentManager.Manager.FinishFailedStop` | apps/desktop/src/main/agents/agent-manager.ts:824-860 | settleFailedStop on the fields of the manager |
| `AgentManager.Manager.Launch` | apps/desktop/src/main/agents/agent-manager.ts:862-909 | launch and launchInner up to adapter.start |
| `AgentManager.Manager.Start` | apps/desktop/src/main/agents/agent-manager.ts:1892-2106 | the synchronous part of start, updating rows and pending runs in place |
| `AgentManager.Manager.CommitResume` | apps/desktop/src/main/agents/agent-manager.ts:2278-2446 | resume from its listing on |
| `AgentManager.Manager.Resume` | apps/desktop/src/main/agents/agent-manager.ts:2180-2210 | the recheck of resume and what it leaves suspended |
| `AgentManager.Manager.LaunchStarted` | apps/desktop/src/main/agents/agent-manager.ts:909-929 | the continuation after adapter.start |
| `AgentManager.Manager.LaunchIdentified` | apps/desktop/src/main/agents/agent-manager.ts:946-991 | the continuation after the identity read |
| `AgentManager.Manager.DecideExit` | apps/desktop/src/main/agents/agent-manager.ts:1469-1502 | a registered intent wins over a cancel request, which wins over the exit code; both are used up |
| `AgentManager.Manager.Exited` | apps/desktop/src/main/agents/agent-manager.ts:1461-1555 | the process.exited handler |
| `AgentManager.Manager.Cancel` | apps/desktop/src/main/agents/agent-manager.ts:2475-2530 | cancel up to its await |
| `AgentManager.Manager.CancelReturned` | apps/desktop/src/main/agents/agent-manager.ts:2530-2556 | the continuation of cancel |
| `AgentManager.Manager.AdapterlessReturned` | apps/desktop/src/main/agents/agent-manager.ts:1633-1648 | the end of the adapterless cancel |
| `AgentManager.Manager.FailAndStop` | apps/desktop/src/main/agents/agent-manager.ts:1655-1712 | doFailAndStop up to its await |
| `AgentManager.Manager.FailStopStopped` | apps/desktop/src/main/agents/agent-manager.ts:1713-1745 | the continuation after the process stop |
| `AgentManager.Manager.FailStopProbed` | apps/desktop/src/main/agents/agent-manager.ts:1747-1778 | the continuation after the survivor probe |
| `AgentManager.Manager.Scan` | apps/desktop/src/main/agents/agent-manager.ts:1014-1017 | the loop to the next queued row with a pending request computes the recursive scan |
| `AgentManager.Manager.AdvanceQueue` | apps/desktop/src/main/agents/agent-manager.ts:994-1004 | whoever calls it: the flag decides between a new pass and another scan of the running one |
| `AgentManager.Manager.Promote` | apps/desktop/src/main/agents/agent-manager.ts:1055-1056 | the candidate leaves the pending requests and its launch begins; the pass waits for it |
| `AgentManager.Manager.ListAgain` | apps/desktop/src/main/agents/agent-manager.ts:1056-1063 | a launch that returns goes back to the pass that awaits it, which lists again; there always is such a pass |
| `AgentManager.Manager.PassListed` | apps/desktop/src/main/agents/agent-manager.ts:1007-1017 | a successful listing and the scan up to the next await |
| `AgentManager.Manager.Judge` | apps/desktop/src/main/agents/agent-manager.ts:1035-1047 | the three skip reasons in the order of the code |
| `AgentManager.Manager.PassJudged` | apps/desktop/src/main/agents/agent-manager.ts:1025-1064 | the decision on one candidate |
| `AgentManager.Manager.Perform` | apps/desktop/src/main/agents/agent-manager.ts:1780-2590 | each segment of the object takes exactly the step its label names |
| `AgentManager.Manager.Serve` | apps/desktop/src/main/agents/agent-manager.ts:436-2556 | from a fresh process, any interleaving in which no resume overlaps another of its run keeps the limits and a single queue pass; with careful calls every run settled since the start has exactly one terminal event |
| `AgentManager.FromTheStart` | apps/desktop/src/main/agents/agent-manager.ts:436-2556 | the same, of the transition system |
| `Workflow.ById` | packages/shared/src/workflow.ts:96 | a later step with the same id wins |
| `Workflow.OrderedHasNoCycle` | packages/shared/src/workflow.ts:94-121 | a dependency order excludes every closed walk |
| `Workflow.SomeSinkReaches` | packages/shared/src/workflow.ts:123-132 | every node of a finite acyclic graph is in the dependsOn closure of a sink |
| `Workflow.ClosedSetContains` | packages/shared/src/workflow.ts:150-163 | a set closed under dependsOn contains everything its members reach |
| `WorkflowCycles.CycleSearch.Visit` | packages/shared/src/workflow.ts:99-114 | the recursive search with its marks: it terminates, keeps the finished nodes in dependency order, and returns only closed walks |
| `WorkflowCycles.Search` | packages/shared/src/workflow.ts:116-120 | a cycle, or a topological order of all nodes |
| `WorkflowCycles.FindDependencyCycle` | packages/shared/src/workflow.ts:95-121 | null exactly when the graph of known nodes can be put in dependency order, exactly when it has no closed walk; otherwise each reported node depends on the next and the last is the first |
| `WorkflowValidation.ActiveNodeIds` | packages/shared/src/workflow.ts:80-92 | the loop computes the nodes active in an iteration |
| `WorkflowValidation.ActiveTerminals` | packages/shared/src/workflow.ts:123-148 | the loops compute the active sinks |
| `WorkflowValidation.Reaching` | packages/shared/src/workflow.ts:150-163 | the worklist terminates on every graph, cycles and dangling names included, with exactly the transitive dependsOn closure of the terminals |
| `WorkflowValidation.UnreachableAfterFiltering` | packages/shared/src/workflow.ts:142-167 | disconnected is exactly the active nodes that lead to no active sink |
| `WorkflowValidation.CheckPhase` | packages/shared/src/workflow.ts:219-233 | the issues of one phase |
| `WorkflowValidation.CheckEdges` | packages/shared/src/workflow.ts:186-209 | the unknown and ill-typed edges, in order |
| `WorkflowValidation.FindDuplicates` | packages/shared/src/workflow.ts:170-184 | the duplicate ids, each against the first step with that id |
| `WorkflowValidation.ValidateGraph` | packages/shared/src/workflow.ts:169-236 | no issue exactly when the definition is valid: unique ids, known and well-typed edges, a topological order, and in every iteration a route from each active node to an active sink |
| `WorkflowValidation.NoDuplicatesIff` | packages/shared/src/workflow.ts:173-184 | no duplicate issue exactly when ids are unique |
| `WorkflowValidation.EdgesFitIff` | packages/shared/src/workflow.ts:186-209 | no edge issue exactly when every edge names a step and a possible outcome of it |
| `WorkflowValidation.PhasesCoverIterations` | packages/shared/src/workflow.ts:219-233 | checking two phases decides the connectivity of all iterations |
| `WorkflowValidation.ActiveSinksConnect` | packages/shared/src/workflow.ts:142-167 | an acyclic non-empty graph whose sinks run in a phase never gets an iteration-disconnected issue |
| `WorkflowValidation.AlwaysNodesStayConnected` | packages/shared/src/workflow.ts:142-167 | in particular one whose nodes are all `always` |
| `DirectiveTokens.TokenizeDirectiveLine` | packages/shared/src/message-directives.ts:74-103 | the character loop computes the tokens of the specification |
| `DirectiveTokens.TokenizePrinted` | packages/shared/src/message-directives.ts:69-103 | tokenizing undoes every spelling of a line: bare and quoted pieces in any mix, any blanks between words |
| `DirectiveTokens.UnterminatedIff` | packages/shared/src/message-directives.ts:100 | a line is refused exactly when its number of quotes is odd |
| `DirectiveTokens.QuotesAreStripped` | packages/shared/src/message-directives.ts:85-92 | no token contains a quote, so each can be printed quoted |
| `MessageDirectives.SlashState.ParseSlashDirective` | packages/shared/src/message-directives.ts:141-224 | the directive switch on the state updated in place |
| `MessageDirectives.SlashState.AssignWorkflow` | packages/shared/src/message-directives.ts:204-220 | the flag loop: the last --test wins, any other flag is refused with its name |
| `MessageDirectives.ParseMention` | packages/shared/src/message-directives.ts:105-127 | the mention form with its four refusals |
| `MessageDirectives.ParseMessageDirectives` | packages/shared/src/message-directives.ts:226-312 | the line loop over the leading directives and what follows computes the specified result |
| `DirectiveRoundTrips.DirectiveIsRead` | packages/shared/src/message-directives.ts:141-224 | the tokens of a legal directive not seen before set exactly its field |
| `DirectiveRoundTrips.BlockIsRead` | packages/shared/src/message-directives.ts:232-251 | a block of distinct legal directives in any order leaves exactly their settings, and stops at the first other line |
| `DirectiveRoundTrips.MessageRoundTrip` | packages/shared/src/message-directives.ts:226-312 | the directives of a run or workflow message in any order and spelling, a blank line and its trimmed prompt parse to exactly that message |
| `DirectiveRoundTrips.PrintedRoundTrip` | packages/shared/src/message-directives.ts:226-312 | in particular with every value quoted |
| `DirectiveRoundTrips.MentionAfterDirectives` | packages/shared/src/message-directives.ts:253-264 | a prompt that starts with @ after directives is a mixed mention, at its line |
| `DirectiveRoundTrips.WorkflowExcludes` | packages/shared/src/message-directives.ts:267-279 | mode, approval and account beside /workflow full are refused, naming one of their lines |
| `ModeDirective.ModeAcceptedIff` | packages/shared/src/message-directives.ts:181-192 | `/mode v` is accepted exactly when v is a mode or a name every object inherits, and sets a real mode exactly when v is not inherited |
| `ModeDirective.ModeMessageIff` | packages/shared/src/message-directives.ts:181-192 | the same of a whole message, which is refused at its line otherwise |
| `ModeDirective.ConstructorIsAMode` | packages/shared/src/message-directives.ts:181-192 | `/mode constructor` with a prompt parses, and asks for no real mode |
| `DirectiveRoundTrips.MentionRoundTrip` | packages/shared/src/message-directives.ts:106-127 | @id, a newline and a trimmed prompt parse to that review |
| `DirectiveRoundTrips.MentionOnOneLine` | packages/shared/src/message-directives.ts:106-127 | what the one-line form keeps of a prompt |
| `DirectiveRoundTrips.MentionKeepsPromptIff` | packages/shared/src/message-directives.ts:106-122 | the one-line form keeps the prompt exactly when its first line does not end in blanks |
| `TextLines.TrimTrims` | packages/shared/src/message-directives.ts:265 | a trimmed text starts and ends without white space |
| `TextLines.SplitOfJoin` | packages/shared/src/message-directives.ts:227 | splitting undoes joining |
| `TextLines.JoinOfSplit` | packages/shared/src/message-directives.ts:265 | joining undoes splitting |
| `ProgressFollower.Follower.HandleLines` | apps/desktop/src/main/agents/progress-follower.ts:239-246 | the index loop hands on exactly the terminated, CR-trimmed lines of the buffer |
| `ProgressFollower.Follower.HandleComplete` | apps/desktop/src/main/agents/progress-follower.ts:235-246 | and keeps exactly the open tail |
| `ProgressFollower.Follower.Drain` | apps/desktop/src/main/agents/progress-follower.ts:211-261 | one drain: new bytes read once, their lines handed on, the final tail handed on, an oversized one dropped |
| `ProgressFollower.Follower.DrainRun` | apps/desktop/src/main/agents/progress-follower.ts:211-225 | a missing file changes nothing, an oversized file stops the follower |
| `ProgressFollower.Follower.Tick` | apps/desktop/src/main/agents/progress-follower.ts:263-271 | a tick drains every followed run and no other |
| `ProgressFollower.Follower.Follow` | apps/desktop/src/main/agents/progress-follower.ts:279-298 | idempotent; starts where the previous follower stopped |
| `ProgressFollower.Follower.Finish` | apps/desktop/src/main/agents/progress-follower.ts:300-314 | one last drain, then the offset is remembered |
| `ProgressFollower.Follower.StopTruncated` | apps/desktop/src/main/agents/progress-follower.ts:175-208 | the follower of an oversized file is dropped with its offset |
| `ProgressFollower.CompleteConcat` | apps/desktop/src/main/agents/progress-follower.ts:232-247 | text that arrives in two portions has the lines of the first and those of its open tail continued by the second |
| `TextLines.SplitConcat` | apps/desktop/src/main/agents/progress-follower.ts:232-247 | only the open line of the first portion is affected by the second |
| `ProgressSchedules.TailIsShort` | apps/desktop/src/main/agents/progress-follower.ts:255-260 | if no line of the file exceeds the limit, no pending tail ever does |
| `ProgressSchedules.SchedulesRefine` | apps/desktop/src/main/agents/progress-follower.ts:211-314 | for every schedule of growth, ticks, finishes and follows the lines handed on are those of the bytes read between two finishes, each once, in order |
| `ProgressSchedules.OneFollowDeliversTheFile` | apps/desktop/src/main/agents/progress-follower.ts:211-261 | within one follow they are the lines of the whole file, whatever the ticks were |
| `ProgressSchedules.RestartsDeliverTheFile` | apps/desktop/src/main/agents/progress-follower.ts:279-314 | across finishes and new follows they are still those of the file, without gap or repetition, as long as each finish meets a line end |
| `ProgressSchedules.CutKeepsLinesIff` | apps/desktop/src/main/agents/progress-follower.ts:248-254 | a finish changes the lines exactly when it cuts one that is continued later |
| `CommandExtraction.ExtractFromLine` | apps/desktop/src/main/permissions/command-extraction.ts:83-114 | the loop over the rules computes the commands and the marker of one line |
| `CommandExtraction.CommandExtractor.Recognize` | apps/desktop/src/main/permissions/command-extraction.ts:137-145 | the loop threads the marker through the lines |
| `CommandExtraction.CommandExtractor.Push` | apps/desktop/src/main/permissions/command-extraction.ts:148-157 | completes lines, keeps the open one, forces an over-long one |
| `CommandExtraction.CommandExtractor.Flush` | apps/desktop/src/main/permissions/command-extraction.ts:158-162 | recognizes the open line once |
| `CommandExtraction.ExtractExecutedCommands` | apps/desktop/src/main/permissions/command-extraction.ts:172-178 | the one-shot form is one push and a flush |
| `CommandExtraction.RecognizedAppend` | apps/desktop/src/main/permissions/command-extraction.ts:137-145 | recognizing in two portions is recognizing at once |
| `ChunkInvariance.LinesConcat` | apps/desktop/src/main/permissions/command-extraction.ts:150-151 | a cut that is not inside a CRLF pair leaves the lines as they are |
| `ChunkInvariance.LinesOfCutPair` | apps/desktop/src/main/permissions/command-extraction.ts:150-151 | a cut inside a pair adds exactly one empty line |
| `ChunkInvariance.WholePairsAreInvariant` | apps/desktop/src/main/permissions/command-extraction.ts:130-178 | for all rules: chunks that leave CRLF pairs whole yield the one-shot commands in the same order |
| `ChunkInvariance.NoAfterMarkerIsBlind` | apps/desktop/src/main/permissions/command-extraction.ts:95 | without an afterMarker rule no command depends on the line before |
| `ChunkInvariance.InvariantIff` | apps/desktop/src/main/permissions/command-extraction.ts:130-178 | every chunking of every text within the bound yields the one-shot commands exactly when no command depends on the marker of the line before or no line marks differently from an empty one |
| `ChunkInvariance.CutPairTells` | apps/desktop/src/main/permissions/command-extraction.ts:142 | the text and the chunks that show the difference otherwise |
| `LogFile.AppendIsAtomic` | apps/desktop/src/main/agents/run-log-store.ts:223-243 | an append adds its bytes or, undone, changes neither content nor size; the durability policy is kept |
| `LogFile.FailedAppendUnchangedIff` | apps/desktop/src/main/agents/run-log-store.ts:235-242 | a failed append leaves content and tracked size unchanged exactly when it is undone: the rollback went through or had nothing to undo |
| `LogFile.StaleSizePadsTheFile` | apps/desktop/src/main/agents/run-log-store.ts:235-242 | after a rollback whose fsync failed, the next failing append fills the file up with zero bytes |
| `LogFile.SyncMakesDurable` | apps/desktop/src/main/agents/run-log-store.ts:212-221 | a forced sync makes everything durable or changes nothing |
| `LogFile.CrashLosesOnlyRecentWrites` | apps/desktop/src/main/agents/run-log-store.ts:138-154 | what a crash can take from a file under the policy is a tail as long as the writes since the last fsync of a dirty handle, each made within the interval after it |
| `RunLogStore.ValidateMeans` | apps/desktop/src/main/agents/run-log-store.ts:174-201 | validation from the start succeeds exactly on a file whose line i carries seq i and counts its lines |
| `RunLogStore.IncrementalIsWhole` | apps/desktop/src/main/agents/run-log-store.ts:174-201 | from any numbered prefix on, looking at the rest alone gives the answer of the whole file |
| `RunLogStore.AppendedIsNumbered` | apps/desktop/src/main/agents/run-log-store.ts:297-300 | appending the next number keeps the numbering |
| `RunLogStore.CountingKeeps` | apps/desktop/src/main/agents/run-log-store.ts:174-201 | validation keeps the caches true |
| `RunLogStore.AppendEventKeeps` | apps/desktop/src/main/agents/run-log-store.ts:293-307 | an event gets the next number and becomes the last line, or nothing changes; a file that is not numbered is never written to |
| `RunLogStore.AppendTerminalKeeps` | apps/desktop/src/main/agents/run-log-store.ts:309-318 | terminal output is added or not, and the event log is left alone |
| `RunLogStore.InitializeKeeps` | apps/desktop/src/main/agents/run-log-store.ts:276-289 | initialization succeeds exactly on a numbered file |
| `RunLogStore.SyncRunKeeps` | apps/desktop/src/main/agents/run-log-store.ts:245-262 | after a flush or disposal that succeeds nothing of the run is unsynced |
| `RunLogStore.EveryLifeKeepsNumbers` | apps/desktop/src/main/agents/run-log-store.ts:138-154 | over any sequence of operations whose failed appends are undone: line i carries seq i, lines are only added, and the durability policy holds |
| `RunLogStore.CrashesLoseLittle` | apps/desktop/src/main/agents/run-log-store.ts:203-262 | from a fresh store on: whenever the process is killed, each file keeps a beginning of itself and loses only writes made within the interval after the last fsync |
| `RunLogFiles.Store.Append` | apps/desktop/src/main/agents/run-log-store.ts:223-243 | the try and the catch on the maps of the store |
| `RunLogFiles.Store.Validate` | apps/desktop/src/main/agents/run-log-store.ts:174-201 | countAndValidateEvents on the maps |
| `RunLogFiles.Store.ValidateTail` | apps/desktop/src/main/agents/run-log-store.ts:188-200 | the loop over the new lines |
| `RunLogFiles.Store.AppendEvent` | apps/desktop/src/main/agents/run-log-store.ts:293-307 | acts on one run as specified and leaves every other run alone |
| `RunLogFiles.Store.Initialize` | apps/desktop/src/main/agents/run-log-store.ts:276-289 | acts on one run as specified |
| `RunLogFiles.Store.SyncRun` | apps/desktop/src/main/agents/run-log-store.ts:245-262 | events first; a failing fsync ends the loop |
| `RunLogFiles.Store.Dispose` | apps/desktop/src/main/agents/run-log-store.ts:341-350 | drops the caches and closes |
| `DecisionRuns.DefaultIsAnOption` | apps/desktop/src/main/decisions/decision-service.ts:127-134 | the timeout answer is one of the options |
| `DecisionRuns.InsertKeepsTable` | apps/desktop/src/main/decisions/decision-repository.ts:220-267 | the unique open key: an insert never makes a second open row |
| `DecisionRuns.CloseKeepsTable` | apps/desktop/src/main/decisions/decision-repository.ts:358-375 | a close takes one open row out of `open`, with an answer among its options |
| `DecisionRuns.StepKeepsTable` | apps/desktop/src/main/decisions/decision-service.ts:166-392 | every step keeps one open row per key, final closed rows, valid answers and one close per row |
| `DecisionRuns.CloseNextKeepsNotices` | apps/desktop/src/main/decisions/decision-service.ts:303-326 | a close tells the handlers exactly when it is a resolution or a timeout |
| `DecisionRuns.FireKeepsNotices` | apps/desktop/src/main/decisions/decision-service.ts:143-156 | a handler of the snapshot fires once |
| `DecisionRuns.StepKeepsNotices` | apps/desktop/src/main/decisions/decision-service.ts:143-163 | every step keeps one dispatch per notifying close and one firing per handler of it |
| `DecisionRuns.EveryRunKeepsTheInbox` | apps/desktop/src/main/decisions/decision-service.ts:165-416 | over every interleaving of repository calls, service calls and re-entering handlers all of this holds, and closed rows never change |
| `DecisionRuns.SettledDispatches` | apps/desktop/src/main/decisions/decision-service.ts:143-156 | when no dispatch is in flight, every handler subscribed at a notifying close has fired for it exactly once |
| `DecisionRuns.QuietClosesStayQuiet` | apps/desktop/src/main/decisions/decision-service.ts:331-392 | no handler ever fires for a cancelled decision, one expired at startup, or one whose row could not be read back |
| `DecisionRuns.EveryRunRecordsItsCloses` | apps/desktop/src/main/decisions/decision-repository.ts:358-375 | over every execution the recorded closes are exactly those of the rows that left `open` since the process began |
| `DecisionRuns.EveryCloseIsToldOnce` | apps/desktop/src/main/decisions/decision-service.ts:143-163 | end to end, with no dispatch in flight: a row that left `open` has one close and its answer; every handler subscribed then fired for it exactly once if it was a resolution or timeout that could be read back, and none otherwise |
| `DecisionService.Service.Open` | apps/desktop/src/main/decisions/decision-service.ts:166-202 | open up to its insert |
| `DecisionService.Service.Insert` | apps/desktop/src/main/decisions/decision-repository.ts:220-267 | the insert and its conflict |
| `DecisionService.Service.Resolve` | apps/desktop/src/main/decisions/decision-service.ts:251-289 | resolve up to its compare-and-set |
| `DecisionService.Service.CloseOpen` | apps/desktop/src/main/decisions/decision-repository.ts:358-375 | the compare-and-set on `open` |
| `DecisionService.Service.CloseNext` | apps/desktop/src/main/decisions/decision-service.ts:313-329 | one round of the closing loops |
| `DecisionService.Service.Fire` | apps/desktop/src/main/decisions/decision-service.ts:146-155 | one round of the dispatch loop |
| `DecisionService.Service.Serve` | apps/desktop/src/main/decisions/decision-service.ts:165-416 | any interleaving driven through the object keeps the inbox, and records exactly the closes of the rows that left `open` |
| `ConfigMerge.DeepMerge` | apps/desktop/src/main/config/config-service.ts:102-116 | the recursive loop computes the merge |
| `ConfigMerge.MergeAssociativeIff` | apps/desktop/src/main/config/config-service.ts:102-116 | merging is associative exactly when no leaf of the middle layer hides an object of the base from an object of the last layer |
| `ConfigMerge.AgreeingHidesNothing` | apps/desktop/src/main/config/config-service.ts:102-116 | in particular when objects meet objects and leaves meet leaves |
| `ConfigMerge.GetPath` | apps/desktop/src/main/config/config-service.ts:132-141 | the loop finds the value at a path |
| `ConfigMerge.LeafPathsMeans` | apps/desktop/src/main/config/config-service.ts:119-130 | the leaf paths are exactly the paths of entries that are not objects |
| `ConfigMerge.SourceRecord.SetSourceForLeaves` | apps/desktop/src/main/config/config-service.ts:144-155 | the loop marks exactly the leaves that have a value in the target |
| `ConfigMerge.ResolveConfig` | apps/desktop/src/main/config/config-service.ts:472-545 | the fold over the layers |
| `ConfigProvenance.MergeAt` | apps/desktop/src/main/config/config-service.ts:102-116 | a merge has the layer's leaves and, where it has none, the base's; undefined entries change nothing |
| `ConfigProvenance.AddLayerHonestIff` | apps/desktop/src/main/config/config-service.ts:144-155 | one more layer keeps the record honest at a path exactly when it has no undefined entry there over an object or over a value recorded for another layer |
| `ConfigProvenance.SourcesAreHonestIff` | apps/desktop/src/main/config/config-service.ts:472-545 | for all layers: every leaf has the value of the last layer that set it, and is recorded with its name, and nothing else is recorded, exactly when that layer is also the last with an entry, undefined or not, at the path once present |
| `ConfigProvenance.SourcesAreHonest` | apps/desktop/src/main/config/config-service.ts:472-545 | in particular at every path at which no layer has an undefined entry |
| `ConfigProvenance.UndefinedClaimsTheSource` | apps/desktop/src/main/config/config-service.ts:144-155 | an override with an undefined entry changes no value, but takes over the source of another layer's value, or records one for an object |
| `ConfigProvenance.SavingStacksIff` | apps/desktop/src/main/config/config-service.ts:440 | saving a patch resolves like stacking it on the old file, for all layers that follow, exactly when the old file hides nothing between the defaults and the patch |
| `ConfigProvenance.SavingKeepsSources` | apps/desktop/src/main/config/config-service.ts:440 | with agreeing kinds, and a file and patch without undefined entries, the recorded sources are the same as well |
| `GitParsers.RestAfterFields` | apps/desktop/src/main/git/git-manager.ts:142-150 | the field loop computes what follows the fields |
| `GitParsers.ParseStatus` | apps/desktop/src/main/git/git-manager.ts:105-140 | the record loop computes the specified status |
| `GitParsers.ParseNumstat` | apps/desktop/src/main/git/git-manager.ts:159-179 | the token loop computes the specified entries |
| `GitRoundTrips.StatusRoundTrip` | apps/desktop/src/main/git/git-manager.ts:105-140 | headers and ordinary, renamed, unmerged and untracked changes come back exactly, renames under the new path, when no rename source leaves a piece that the parser takes for a record |
| `GitRoundTrips.TransparentIff` | apps/desktop/src/main/git/git-manager.ts:111-131 | a rename comes back, whatever was read before and follows, exactly when all pieces of its source after the first are passed over |
| `GitRoundTrips.RecordsAlignIff` | apps/desktop/src/main/git/git-manager.ts:111-114 | the parser sees one record per record written exactly when every rename source stays in one piece |
| `GitRoundTrips.GhostEntry` | apps/desktop/src/main/git/git-manager.ts:111-131 | a rename source that starts with # and holds a second line yields an entry that does not exist |
| `GitRoundTrips.NumstatRoundTrip` | apps/desktop/src/main/git/git-manager.ts:159-179 | every written file comes back with its counts, renames under the new path, except plain paths with a line break |
| `GitRoundTrips.KeptAllIff` | apps/desktop/src/main/git/git-manager.ts:165-166 | nothing is lost exactly when every plain path is a single line |
| `GitRoundTrips.AheadBehindIsRead` | apps/desktop/src/main/git/git-manager.ts:123-126 | the ahead and behind counts come back |
| `GitRoundTrips.RestOfFields` | apps/desktop/src/main/git/git-manager.ts:142-150 | a path with spaces survives the fields before it |
| `GitParsers.NumberOfDecimal` | apps/desktop/src/main/git/git-manager.ts:167-168 | reading undoes decimal printing |
| `RunWatchdog.CheckIdleKeeps` | apps/desktop/src/main/agents/run-watchdog-service.ts:199-256 | the idle check notifies only outside an episode, and its set says who is in one |
| `RunWatchdog.AfterStopKeeps` | apps/desktop/src/main/agents/run-watchdog-service.ts:166-196 | the counter is the number of conflicts in a row; the third one escalates |
| `RunWatchdog.EndKeeps` | apps/desktop/src/main/agents/run-watchdog-service.ts:294-306 | dropping the bookkeeping of unseen runs matches the history |
| `RunWatchdog.EveryRunIsProper` | apps/desktop/src/main/agents/run-watchdog-service.ts:142-331 | over every execution: ticks never overlap, one notification per episode, no stop asked of an escalated run, escalation exactly at the third conflict in a row |
| `RunWatchdog.EveryLifeIsProper` | apps/desktop/src/main/agents/run-watchdog-service.ts:142-331 | in particular from a fresh watchdog on, whatever happens |
| `RunWatchdog.EpisodesAreSeparated` | apps/desktop/src/main/agents/run-watchdog-service.ts:199-231 | between two notifications of a run there is activity, an acknowledgement, a check below the threshold or a completed tick that misses it |
| `RunWatchdog.GivenUpIsLeftAlone` | apps/desktop/src/main/agents/run-watchdog-service.ts:159-196 | after an escalation no stop is asked of the run before a completed tick misses it |
| `RunWatchdogService.Service.NoteActivity` | apps/desktop/src/main/agents/run-watchdog-service.ts:142-147 | records the activity and ends the episode |
| `RunWatchdogService.Service.AcknowledgeIdle` | apps/desktop/src/main/agents/run-watchdog-service.ts:335-352 | the same for an acknowledgement that was stored |
| `RunWatchdogService.Service.Check` | apps/desktop/src/main/agents/run-watchdog-service.ts:199-256 | checkIdle on the sets of the service |
| `RunWatchdogService.Service.Visit` | apps/desktop/src/main/agents/run-watchdog-service.ts:281-292 | one round of the inspection loop |
| `RunWatchdogService.Service.RecordAnswer` | apps/desktop/src/main/agents/run-watchdog-service.ts:166-196 | what checkPreparing does with the answer |
| `RunWatchdogService.Service.TickEnds` | apps/desktop/src/main/agents/run-watchdog-service.ts:294-306 | the cleanup at the end of a tick |
| `WorkerPool.StepKeeps` | apps/desktop/src/main/git/diff-service.ts:53-59 | every step keeps each index claimed once, in order, with its own result or held by exactly one worker |
| `WorkerPool.EveryScheduleKeeps` | apps/desktop/src/main/git/diff-service.ts:46-62 | over every interleaving |
| `WorkerPool.CompletesIff` | apps/desktop/src/main/git/diff-service.ts:46-62 | when all workers are done every item has its own result, exactly when there was a worker or nothing to do |
| `WorkerPool.InFlightIsBounded` | apps/desktop/src/main/git/diff-service.ts:53 | never more calls in flight than allowed |
| `WorkerPool.MapRun.Loop` | apps/desktop/src/main/git/diff-service.ts:54-56 | the head of a worker's loop on the shared counter |
| `WorkerPool.MapRun.Answer` | apps/desktop/src/main/git/diff-service.ts:57-58 | the result is stored in the shared array and the loop goes on |
| `Disagreements.SetsDifferIff` | apps/desktop/src/main/agents/review-panel-service.ts:204-206 | the two set sizes say exactly that two findings differ in both reviewer and severity |
| `Disagreements.ReportedIff` | apps/desktop/src/main/agents/review-panel-service.ts:172-222 | a criterion or file is reported exactly when two findings on it come from different reviewers with different severities |
| `Disagreements.VerdictsDifferIff` | apps/desktop/src/main/agents/review-panel-service.ts:176-186 | the verdicts are reported exactly when two members differ |
| `Disagreements.SubjectRoundTrip` | apps/desktop/src/main/agents/review-panel-service.ts:191-210 | taking a subject apart at its colons gives back the criterion or file it was made of |
| `Disagreements.GroupFindings` | apps/desktop/src/main/agents/review-panel-service.ts:188-202 | the loops group the findings by subject in order of first occurrence |
| `Disagreements.ComputeDisagreements` | apps/desktop/src/main/agents/review-panel-service.ts:172-222 | the loops compute the specified reports |
| `Disagreements.MixedIff` | apps/desktop/src/main/agents/review-panel-service.ts:224-229 | the consensus is mixed exactly when verdicts are reported as differing or nobody could review |

## Left out

- Liveness of the queue: no claim that an eligible run is eventually launched; some releases of a slot, such as the fallback of cancel and a launch that fails with a settled row, do not wake the queue.
- Deletion of run rows by the retention service, disposal of the agent manager, and startup reconciliation itself.
- Failing repository reads and writes inside the agent manager, apart from a failing listing of the queue pass and a failing limit or profile read.
- Prompt building, permission projection, audit events, task status, manifests, automatic retries and handoffs of the agent manager: they take no part in admission or settlement.
- Return values of the agent manager's calls: the model says what a call does to the rows, the log and the bookkeeping.
- RunSettlement.EveryInterleavingSettlesOnce: assumes that no resume overlaps another of its run, no failed start and no adapterless return meets a settled row and the queue pass promotes no settled candidate, because the code does not exclude them (`RunSettlement.SettledTwiceExactly`, `RunSettlement.StaleBindingExactly`); the last of these follows from a condition on the calls (`RunIntents.CarefulIsTame`).
- RunIntents.IntentDecidesTheExit: assumes the same of what follows the exit.
- AgentManager.Manager.Serve: assumes that no resume overlaps another of its run, and for the terminal events the conditions of `RunSettlement.EveryInterleavingSettlesOnce`.
- AdmissionSafety.LimitsHoldInEveryRun: assumes that a resume finds its row still interrupted, because the code does not check again after the profile read (`RunFindings.OverlappingResumesBreakTheLimit`).
- WorkflowValidation.UnreachableAfterFiltering: gives the stranded nodes as a set; the alphabetical order in which the message names them is not modelled.
- Shape validation of workflow definitions, and the texts of validation and parse errors (their kind, line, directive and value are modelled).
- Text is a sequence of characters: a character outside the basic plane counts once, while the source counts UTF-16 code units.
- Oversized progress lines: the lemmas about schedules assume lines within 8 KiB and a file within 4 MiB; the drop of an oversized tail and the stop at an oversized file are modelled in `ProgressFollower.Drained` and `ProgressFollower.TickRun`.
- A progress file that shrinks is read from its start again in the model, but the schedules of `ProgressSchedules` only let it grow.
- RunLogStore.EveryLifeKeepsNumbers: assumes that a failing append is undone; `LogFile.FailedAppendUnchangedIff` says exactly when it is, and `LogFile.StaleSizePadsTheFile` what follows otherwise.
- External changes to a log file, redaction, the manifest, the terminal tail reader and `disposeAll`, which closes every handle as `dispose` closes two.
- Listing and reading decisions, the decoding of rows, and the events other than handler calls; a listing appears as an arbitrary ordering of the rows it must return.
- Config keys with dots, and prototype-like keys beyond the guard of the merge: `ConfigProvenance` assumes layers without them.
- Validation of config layers, secret scanning and the restriction of groups to the global layer.
- GitRoundTrips.StatusRoundTrip: assumes that no rename source leaves a piece the parser takes for a record; what such a piece does to the records after it is described by `GitRoundTrips.TransparentIff` and `GitRoundTrips.GhostEntry` only.
- Counts beyond the exact integers of JavaScript numbers in git output; `parseLog` and path validation.
- The watchdog's use of the decision inbox, its tick listeners and its configuration lookup: they do not change its bookkeeping.
- `sortFindings` (a library sort), the convergence of a panel and the storage of its aggregate.
