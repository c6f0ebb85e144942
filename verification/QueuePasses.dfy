/**
 * advanceQueue with its flag (agent-manager.ts 994-1074): every wake-up calls
 * it, so any number of passes could be in flight; the flag sees to it that one
 * is.  The transition system of RunLifecycle has a single pass because of what
 * is proved here.
 */
module QueuePasses {
  import opened Common
  import opened RunAdmission
  import opened RunLifecycle

  type PassId = nat

  // The flags of the manager and where each pass in flight is suspended.
  datatype Passes = Passes(advancingQueue: bool, advanceAgain: bool, running: map<PassId, Pass>, started: nat) {

    /** At most one pass is in flight, and the flag is up exactly while it is. */
    ghost predicate Valid() {
      && (forall p | p in running :: p < started && !running[p].Idle?)
      && (forall p, q | p in running && q in running :: p == q)
      && (advancingQueue <==> exists p :: p in running)
    }

    // Where the queue pass is suspended, if there is one.
    ghost function Current(): Pass {
      if exists p :: p in running then (var p :| p in running; running[p]) else Idle
    }
  }

  const NO_PASSES := Passes(false, false, map[], 0)

  // advanceQueue up to its first await.
  function Advance(q: Passes): Passes {
    if q.advancingQueue then q.(advanceAgain := true)
    else Passes(true, false, q.running[q.started := Listing], q.started + 1)
  }

  function Suspend(q: Passes, p: PassId, at: Pass): Passes {
    q.(running := q.running[p := at])
  }

  // The finally of advanceQueue.
  function Leave(q: Passes, p: PassId): Passes {
    q.(advancingQueue := false, running := q.running - {p})
  }

  // The scan of one pass up to its next await.
  function Scanned(q: Passes, p: PassId, listed: Runs, rest: seq<RunId>, pending: set<RunId>): Passes {
    if rest == [] then
      if q.advanceAgain then Suspend(q.(advanceAgain := false), p, Listing) else Leave(q, p)
    else if rest[0] in pending then Suspend(q, p, Judging(listed, rest[0], rest[1..]))
    else Scanned(q, p, listed, rest[1..], pending)
  }

  lemma CurrentIs(q: Passes, p: PassId)
    requires q.Valid() && p in q.running
    ensures q.Current() == q.running[p]
  {
  }

  lemma SuspendKeeps(q: Passes, p: PassId, at: Pass)
    requires q.Valid() && p in q.running && !at.Idle?
    ensures Suspend(q, p, at).Valid() && Suspend(q, p, at).Current() == at
  {
    var q' := Suspend(q, p, at);
    assert p in q'.running;
    CurrentIs(q', p);
  }

  lemma LeaveKeeps(q: Passes, p: PassId)
    requires q.Valid() && p in q.running
    ensures Leave(q, p).Valid() && Leave(q, p).Current() == Idle
  {
  }

  // ---- the passes and the transition system ----

  ghost predicate Agrees(s: State, q: Passes) {
    q.Valid() && s.pass == q.Current() && s.advanceAgain == q.advanceAgain
  }

  /** A wake-up starts the one pass, or asks it to scan again. */
  lemma AdvanceIsWake(s: State, q: Passes)
    requires Agrees(s, q)
    ensures Agrees(Wake(s), Advance(q))
  {
    var q' := Advance(q);
    if q.advancingQueue {
      var p :| p in q.running;
      CurrentIs(q, p);
      CurrentIs(q', p);
    } else {
      assert q'.running.Keys == {q.started};
      assert q.started in q'.running;
      CurrentIs(q', q.started);
    }
  }

  lemma ScanEnds(s: State, q: Passes, p: PassId, listed: Runs)
    requires Agrees(s, q) && p in q.running
    ensures Agrees(NextCandidate(s, listed, []), Scanned(q, p, listed, [], s.pendingRuns))
  {
    if s.advanceAgain {
      assert q.(advanceAgain := false).Valid();
      SuspendKeeps(q.(advanceAgain := false), p, Listing);
    } else {
      LeaveKeeps(q, p);
    }
    hide Passes.Valid, Passes.Current, Suspend, Leave;
  }

  /** The pass in flight scans as the transition system says. */
  lemma {:induction false} ScannedIsNext(s: State, q: Passes, p: PassId, listed: Runs, rest: seq<RunId>)
    requires Agrees(s, q) && p in q.running
    ensures Agrees(NextCandidate(s, listed, rest), Scanned(q, p, listed, rest, s.pendingRuns))
  {
    if rest == [] {
      ScanEnds(s, q, p, listed);
    } else if rest[0] in s.pendingRuns {
      SuspendKeeps(q, p, Judging(listed, rest[0], rest[1..]));
      hide Passes.Valid, Passes.Current;
    } else {
      hide Agrees;
      ScannedIsNext(s, q, p, listed, rest[1..]);
    }
  }

  /** A launch of the queue has a pass waiting for it. */
  ghost predicate Awaited(launches: map<Call, Launch>, running: map<PassId, Pass>) {
    forall c | c in launches && launches[c].caller.ByQueue? :: exists p :: p in running && running[p] == Promoting(c)
  }

  lemma AdvanceAwaits(launches: map<Call, Launch>, q: Passes)
    requires q.Valid() && Awaited(launches, q.running)
    ensures Awaited(launches, Advance(q).running)
  {
    assert q.started !in q.running;
    forall c | c in launches && launches[c].caller.ByQueue?
      ensures exists p :: p in Advance(q).running && Advance(q).running[p] == Promoting(c)
    {
      var p :| p in q.running && q.running[p] == Promoting(c);
      assert p in Advance(q).running && Advance(q).running[p] == Promoting(c);
    }
  }

  // Launches may go, and come from elsewhere.
  lemma OthersAwait(launches: map<Call, Launch>, running: map<PassId, Pass>, call: Call, l: Launch)
    requires Awaited(launches, running)
    requires l.caller.ByQueue? ==> call in launches && launches[call].caller.ByQueue?
    ensures Awaited(launches - {call}, running) && Awaited(launches[call := l], running)
  {
  }

  // A judging or listing pass awaits no launch, so it may move on, or promote a run.
  lemma MovingAwaits(launches: map<Call, Launch>, q: Passes, p: PassId, call: Call, l: Launch)
    requires q.Valid() && p in q.running && !q.running[p].Promoting? && Awaited(launches, q.running)
    ensures forall running :: Awaited(launches, running)
    ensures Awaited(launches[call := l], q.running[p := Promoting(call)])
  {
    var running' := q.running[p := Promoting(call)];
    assert p in running' && running'[p] == Promoting(call);
  }

  // When the awaited launch returns, no launch of the queue is left.
  lemma ReturningAwaits(launches: map<Call, Launch>, q: Passes, p: PassId, call: Call)
    requires q.Valid() && p in q.running && q.running[p] == Promoting(call) && Awaited(launches, q.running)
    ensures forall running :: Awaited(launches - {call}, running)
  {
  }

  // ---- every interleaving ----

  datatype Event =
    | Scheduled
    | Listed(pass: PassId, listing: Runs, order: seq<RunId>, pending: set<RunId>)
    | ListFailed(pass: PassId)
    | Skipped(pass: PassId, pending: set<RunId>)
    | Promoted(pass: PassId, call: Call)
    | LaunchReturned(pass: PassId)

  // Any pass in flight may go on; anyone may schedule one at any time.
  ghost predicate CanHappen(q: Passes, e: Event) {
    match e
    case Scheduled => true
    case Listed(p, _, _, _) => p in q.running && q.running[p].Listing?
    case ListFailed(p) => p in q.running && q.running[p].Listing?
    case Skipped(p, _) => p in q.running && q.running[p].Judging?
    case Promoted(p, _) => p in q.running && q.running[p].Judging?
    case LaunchReturned(p) => p in q.running && q.running[p].Promoting?
  }

  ghost function Happen(q: Passes, e: Event): Passes
    requires CanHappen(q, e)
  {
    match e
    case Scheduled => Advance(q)
    case Listed(p, listing, order, pending) => Scanned(q, p, listing, order, pending)
    case ListFailed(p) => Leave(q, p)
    case Skipped(p, pending) => Scanned(q, p, q.running[p].listed, q.running[p].rest, pending)
    case Promoted(p, call) => Suspend(q, p, Promoting(call))
    case LaunchReturned(p) => Suspend(q, p, Listing)
  }

  ghost predicate CanRun(q: Passes, events: seq<Event>)
    decreases |events|
  {
    events == [] || (CanHappen(q, events[0]) && CanRun(Happen(q, events[0]), events[1..]))
  }

  ghost function Afterwards(q: Passes, events: seq<Event>): Passes
    requires CanRun(q, events)
    decreases |events|
  {
    if events == [] then q else Afterwards(Happen(q, events[0]), events[1..])
  }

  lemma AdvanceKeeps(q: Passes)
    requires q.Valid()
    ensures Advance(q).Valid()
  {
    if !q.advancingQueue { assert q.started in Advance(q).running; }
  }

  lemma {:induction false} ScannedKeeps(q: Passes, p: PassId, listed: Runs, rest: seq<RunId>, pending: set<RunId>)
    requires q.Valid() && p in q.running
    ensures Scanned(q, p, listed, rest, pending).Valid()
  {
    if rest == [] {
      if q.advanceAgain {
        SuspendKeeps(q.(advanceAgain := false), p, Listing) by { assert q.(advanceAgain := false).Valid(); }
      } else {
        LeaveKeeps(q, p);
      }
    } else if rest[0] in pending {
      SuspendKeeps(q, p, Judging(listed, rest[0], rest[1..]));
    } else {
      ScannedKeeps(q, p, listed, rest[1..], pending);
    }
  }

  /**
   * Queue passes never overlap: in every interleaving of wake-ups and of the
   * segments of whatever passes are in flight, at most one is, and the flag is up
   * exactly then.
   */
  lemma {:induction false} PassesNeverOverlap(q: Passes, events: seq<Event>)
    requires q.Valid() && CanRun(q, events)
    ensures Afterwards(q, events).Valid() && |Afterwards(q, events).running| <= 1
    decreases |events|
  {
    if events == [] {
      if q.running != map[] {
        var p :| p in q.running;
        assert q.running.Keys == {p};
        assert |q.running| == |q.running.Keys|;
      }
    } else {
      match events[0] {
        case Scheduled => AdvanceKeeps(q);
        case Listed(p, listing, order, pending) => ScannedKeeps(q, p, listing, order, pending);
        case ListFailed(p) => LeaveKeeps(q, p);
        case Skipped(p, pending) => ScannedKeeps(q, p, q.running[p].listed, q.running[p].rest, pending);
        case Promoted(p, call) => SuspendKeeps(q, p, Promoting(call));
        case LaunchReturned(p) => SuspendKeeps(q, p, Listing);
      }
      PassesNeverOverlap(Happen(q, events[0]), events[1..]);
    }
  }
}
