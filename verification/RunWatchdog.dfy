/**
 * The run watchdog (run-watchdog-service.ts 127-371): ticks that are cut at every
 * failAndStop they await, with activity and acknowledgements arriving between.
 * `log` is the history the properties speak about.
 */
module RunWatchdog {
  import opened Common

  type RunId = string
  type TickId = nat

  const MAX_PREPARING_CONFLICTS: nat := 3

  datatype IdleAction = Ask | Stop

  datatype Config = Config(preparingTimeoutMs: int, idleTimeoutMs: int, idleAction: IdleAction)

  // A row as it was listed; `silenceChecked` says that its status is one the idle
  // check looks at.
  datatype Run = Run(
    id: RunId,
    preparing: bool,
    silenceChecked: bool,
    updatedAt: int,
    startedAt: int,
    lastOutputAt: Option<int>,
    lastInputAt: Option<int>)

  datatype Stage = NextRun | StoppingPreparing(run: Run, config: Config) | StoppingIdle

  // A tick in flight: the rows still to check and the ids already seen.
  datatype Tick = Tick(now: int, rest: seq<Run>, seen: set<RunId>, stage: Stage)

  datatype Answer = Stopped | Conflict | OtherError

  datatype Note =
    | IdleStalled(run: RunId)
    | Active(run: RunId)
    | Acknowledged(run: RunId)
    | BelowThreshold(run: RunId)
    | StopAsked(run: RunId)
    | StopAnswered(run: RunId, answer: Answer)
    | Escalated(run: RunId)
    | Present(seen: set<RunId>)

  datatype State = State(
    preparingConflicts: map<RunId, nat>,
    preparingEscalated: set<RunId>,
    stalledNotified: set<RunId>,
    notedActivity: map<RunId, int>,
    ticking: bool,
    disposed: bool,
    ticks: map<TickId, Tick>,
    log: seq<Note>)

  datatype Label =
    | TickFires(tick: TickId, listed: Option<seq<Run>>, now: int)
    | Visit(tick: TickId, config: Option<Config>)
    | PreparingAnswered(tick: TickId, answer: Answer)
    | IdleAnswered(tick: TickId)
    | TickEnds(tick: TickId)
    | TickThrows(tick: TickId)
    | NoteActivity(run: RunId, at: int)
    | AcknowledgeIdle(run: RunId, at: int, updated: bool)
    | Dispose

  function Max(a: int, b: int): int { if a >= b then a else b }

  function Latest(a: Option<int>, b: Option<int>): Option<int> {
    if a.None? then b else if b.None? then a else Some(Max(a.value, b.value))
  }

  // The silence the idle check measures.
  function SilentFor(run: Run, noted: Option<int>, now: int): int {
    var observed := Latest(Latest(run.lastOutputAt, run.lastInputAt), noted);
    Max(0, now - if observed.Some? then observed.value else run.startedAt)
  }

  predicate PossiblyStalled(run: Run, noted: Option<int>, now: int, thresholdMs: int) {
    run.silenceChecked && thresholdMs >= 1000 && SilentFor(run, noted, now) >= thresholdMs
  }

  // The preparing check asks for a stop.
  predicate StopsPreparing(s: State, run: Run, config: Config, now: int) {
    run.preparing && Max(0, now - run.updatedAt) >= config.preparingTimeoutMs && run.id !in s.preparingEscalated
  }

  function Staged(s: State, tick: TickId, stage: Stage): State
    requires tick in s.ticks
  {
    s.(ticks := s.ticks[tick := s.ticks[tick].(stage := stage)])
  }

  // checkIdle up to its await.
  function CheckIdle(s: State, tick: TickId, run: Run, config: Config): State
    requires tick in s.ticks
  {
    var noted := if run.id in s.notedActivity then Some(s.notedActivity[run.id]) else None;
    if config.idleTimeoutMs == 0 then Staged(s, tick, NextRun)
    else if !PossiblyStalled(run, noted, s.ticks[tick].now, config.idleTimeoutMs) then
      Staged(s.(stalledNotified := s.stalledNotified - {run.id}, log := s.log + [BelowThreshold(run.id)]), tick, NextRun)
    else
      var first := run.id !in s.stalledNotified;
      Staged(s.(stalledNotified := s.stalledNotified + {run.id},
                log := if first then s.log + [IdleStalled(run.id)] else s.log),
             tick, if config.idleAction.Ask? then NextRun else StoppingIdle)
  }

  function FireSegment(s: State, tick: TickId, listed: Option<seq<Run>>, now: int): State {
    if s.disposed || s.ticking || listed.None? then s
    else s.(ticking := true, ticks := s.ticks[tick := Tick(now, listed.value, {}, NextRun)])
  }

  // One round of the loop in inspect, up to its first await.
  function VisitSegment(s: State, tick: TickId, config: Option<Config>): State
    requires tick in s.ticks && s.ticks[tick].rest != []
  {
    var t := s.ticks[tick];
    var run := t.rest[0];
    var s1 := s.(ticks := s.ticks[tick := t.(rest := t.rest[1..], seen := t.seen + {run.id})]);
    if config.None? then s1
    else if StopsPreparing(s, run, config.value, t.now) then
      Staged(s1.(log := s.log + [StopAsked(run.id)]), tick, StoppingPreparing(run, config.value))
    else CheckIdle(s1, tick, run, config.value)
  }

  // failAndStop answered the preparing check; checkIdle follows.
  function PreparingSegment(s: State, tick: TickId, answer: Answer): State
    requires tick in s.ticks && s.ticks[tick].stage.StoppingPreparing?
  {
    var StoppingPreparing(run, config) := s.ticks[tick].stage;
    CheckIdle(AfterStop(s, run.id, answer), tick, run, config)
  }

  function Conflicts(s: State, r: RunId): nat {
    if r in s.preparingConflicts then s.preparingConflicts[r] else 0
  }

  function AfterStop(s: State, r: RunId, answer: Answer): State {
    var log := s.log + [StopAnswered(r, answer)];
    var conflicts := Conflicts(s, r) + 1;
    if !answer.Conflict? then s.(preparingConflicts := s.preparingConflicts - {r}, log := log)
    else if conflicts < MAX_PREPARING_CONFLICTS then
      s.(preparingConflicts := s.preparingConflicts[r := conflicts], log := log)
    else
      s.(preparingConflicts := s.preparingConflicts - {r},
         preparingEscalated := s.preparingEscalated + {r},
         log := log + [Escalated(r)])
  }

  // The end of inspect: bookkeeping of runs that were not seen is dropped.
  function EndSegment(s: State, tick: TickId): State
    requires tick in s.ticks
  {
    var seen := s.ticks[tick].seen;
    s.(preparingConflicts := map r | r in s.preparingConflicts && r in seen :: s.preparingConflicts[r],
       preparingEscalated := s.preparingEscalated * seen,
       stalledNotified := s.stalledNotified * seen,
       notedActivity := map r | r in s.notedActivity && r in seen :: s.notedActivity[r],
       ticking := false,
       ticks := s.ticks - {tick},
       log := s.log + [Present(seen)])
  }

  function NoteSegment(s: State, r: RunId, at: int): State {
    if s.disposed then s
    else
      s.(notedActivity := s.notedActivity[r := at], stalledNotified := s.stalledNotified - {r}, log := s.log + [Active(r)])
  }

  function AcknowledgeSegment(s: State, r: RunId, at: int, updated: bool): State {
    if !updated then s
    else
      s.(notedActivity := s.notedActivity[r := at], stalledNotified := s.stalledNotified - {r},
         log := s.log + [Acknowledged(r)])
  }

  ghost predicate Enabled(s: State, l: Label) {
    match l
    case TickFires(t, _, _) => t !in s.ticks
    case Visit(t, _) => t in s.ticks && s.ticks[t].stage.NextRun? && s.ticks[t].rest != []
    case PreparingAnswered(t, _) => t in s.ticks && s.ticks[t].stage.StoppingPreparing?
    case IdleAnswered(t) => t in s.ticks && s.ticks[t].stage.StoppingIdle?
    case TickEnds(t) => t in s.ticks && s.ticks[t].stage.NextRun? && s.ticks[t].rest == []
    case TickThrows(t) => t in s.ticks
    case NoteActivity(_, _) => true
    case AcknowledgeIdle(_, _, _) => true
    case Dispose => true
  }

  ghost function Apply(s: State, l: Label): State
    requires Enabled(s, l)
  {
    match l
    case TickFires(t, listed, now) => FireSegment(s, t, listed, now)
    case Visit(t, config) => VisitSegment(s, t, config)
    case PreparingAnswered(t, answer) => PreparingSegment(s, t, answer)
    case IdleAnswered(t) => Staged(s, t, NextRun)
    case TickEnds(t) => EndSegment(s, t)
    case TickThrows(t) => s.(ticking := false, ticks := s.ticks - {t})
    case NoteActivity(r, at) => NoteSegment(s, r, at)
    case AcknowledgeIdle(r, at, updated) => AcknowledgeSegment(s, r, at, updated)
    case Dispose => s.(disposed := true)
  }

  ghost predicate IsRun(s: State, trace: seq<Label>)
    decreases |trace|
  {
    trace == [] || (Enabled(s, trace[0]) && IsRun(Apply(s, trace[0]), trace[1..]))
  }

  ghost function After(s: State, trace: seq<Label>): State
    requires IsRun(s, trace)
    decreases |trace|
  {
    if trace == [] then s else After(Apply(s, trace[0]), trace[1..])
  }

  const START := State(map[], {}, {}, map[], false, false, map[], [])

  // ---- what the history says ----

  // How one note changes whether a run is in a stall episode ...
  predicate EpisodeAfter(was: bool, n: Note, r: RunId) {
    if n == IdleStalled(r) then true else was && !EndsEpisode(n, r)
  }

  predicate EndsEpisode(n: Note, r: RunId) {
    n == Active(r) || n == Acknowledged(r) || n == BelowThreshold(r) || Misses(n, r)
  }

  // A completed tick that did not see the run.
  predicate Misses(n: Note, r: RunId) { n.Present? && r !in n.seen }

  // ... how many conflicts in a row it has had ...
  function StreakAfter(was: nat, n: Note, r: RunId): nat {
    if n.StopAnswered? && n.run == r then if n.answer.Conflict? then was + 1 else 0
    else if n == Escalated(r) || Misses(n, r) then 0
    else was
  }

  // ... and whether the preparing check has given it up.
  predicate GivenUpAfter(was: bool, n: Note, r: RunId) {
    if n == Escalated(r) then true else was && !Misses(n, r)
  }

  predicate InEpisode(log: seq<Note>, r: RunId) {
    log != [] && EpisodeAfter(InEpisode(log[..|log| - 1], r), log[|log| - 1], r)
  }

  function Streak(log: seq<Note>, r: RunId): nat {
    if log == [] then 0 else StreakAfter(Streak(log[..|log| - 1], r), log[|log| - 1], r)
  }

  predicate GivenUp(log: seq<Note>, r: RunId) {
    log != [] && GivenUpAfter(GivenUp(log[..|log| - 1], r), log[|log| - 1], r)
  }

  /** The note may be written after `before`. */
  predicate Proper(before: seq<Note>, n: Note) {
    match n
    case IdleStalled(r) => !InEpisode(before, r)
    case StopAsked(r) => !GivenUp(before, r)
    case Escalated(r) => Streak(before, r) == MAX_PREPARING_CONFLICTS
    case _ => true
  }

  /**
   * One notification per stall episode; a stop is asked of no run the preparing
   * check has given up; escalation at the third conflict in a row and only there.
   */
  ghost predicate ProperLog(log: seq<Note>) {
    forall i | 0 <= i < |log| :: Proper(log[..i], log[i])
  }

  /** The maps and sets say what the history says. */
  ghost predicate Tracks(s: State) {
    forall r: RunId :: TracksRun(s, r)
  }

  ghost predicate TracksRun(s: State, r: RunId) {
    && (r in s.stalledNotified <==> InEpisode(s.log, r))
    && Conflicts(s, r) == Streak(s.log, r) < MAX_PREPARING_CONFLICTS
    && (r in s.preparingEscalated <==> GivenUp(s.log, r))
  }

  /** Ticks never overlap. */
  ghost predicate OneTick(s: State) {
    && (s.ticking <==> s.ticks != map[])
    && (forall t, t' | t in s.ticks && t' in s.ticks :: t == t')
  }

  ghost predicate Inv(s: State) { Tracks(s) && ProperLog(s.log) && OneTick(s) }

  lemma LogGrows(log: seq<Note>, n: Note)
    requires ProperLog(log) && Proper(log, n)
    ensures ProperLog(log + [n])
  {
    forall i | 0 <= i < |log + [n]| ensures Proper((log + [n])[..i], (log + [n])[i]) {
      if i < |log| {
        assert (log + [n])[..i] == log[..i];
      } else {
        assert (log + [n])[..i] == log;
      }
    }
  }

  // The three readings of the history after one more note.
  lemma OneMoreNote(log: seq<Note>, n: Note, r: RunId)
    ensures InEpisode(log + [n], r) == EpisodeAfter(InEpisode(log, r), n, r)
    ensures Streak(log + [n], r) == StreakAfter(Streak(log, r), n, r)
    ensures GivenUp(log + [n], r) == GivenUpAfter(GivenUp(log, r), n, r)
  {
    assert (log + [n])[..|log|] == log;
  }

  // The bookkeeping moves as the note says.
  ghost predicate Follows(s: State, s': State, n: Note, r: RunId) {
    && (r in s'.stalledNotified <==> EpisodeAfter(r in s.stalledNotified, n, r))
    && Conflicts(s', r) == StreakAfter(Conflicts(s, r), n, r)
    && (r in s'.preparingEscalated <==> GivenUpAfter(r in s.preparingEscalated, n, r))
  }

  lemma NoteKeeps(s: State, s': State, n: Note)
    requires Tracks(s) && ProperLog(s.log) && Proper(s.log, n) && s'.log == s.log + [n]
    requires forall r: RunId :: Follows(s, s', n, r) && Conflicts(s', r) < MAX_PREPARING_CONFLICTS
    ensures Tracks(s') && ProperLog(s'.log)
  {
    hide InEpisode, Streak, GivenUp, ProperLog, EpisodeAfter, StreakAfter, GivenUpAfter, Conflicts, Proper;
    LogGrows(s.log, n);
    forall r ensures TracksRun(s', r) {
      assert TracksRun(s, r) && Follows(s, s', n, r);
      OneMoreNote(s.log, n, r);
    }
  }

  lemma ConflictsAreFew(s: State)
    requires Tracks(s)
    ensures forall r: RunId :: Conflicts(s, r) < MAX_PREPARING_CONFLICTS
  {
    forall r: RunId ensures Conflicts(s, r) < MAX_PREPARING_CONFLICTS { assert TracksRun(s, r); }
  }

  lemma CheckIdleKeeps(s: State, tick: TickId, run: Run, config: Config)
    requires Inv(s) && tick in s.ticks
    ensures Inv(CheckIdle(s, tick, run, config))
  {
    var s' := CheckIdle(s, tick, run, config);
    ConflictsAreFew(s);
    assert TracksRun(s, run.id);
    hide PossiblyStalled, InEpisode, Streak, GivenUp, ProperLog, Tracks;
    assert OneTick(s');
    if s'.log == s.log {
      assert s'.stalledNotified == s.stalledNotified;
      QuietKeeps(s, s');
    } else {
      NoteKeeps(s, s', s'.log[|s.log|]);
    }
  }

  lemma AfterStopKeeps(s: State, r: RunId, answer: Answer)
    requires Inv(s)
    ensures Inv(AfterStop(s, r, answer))
  {
    var s' := AfterStop(s, r, answer);
    var n := StopAnswered(r, answer);
    ConflictsAreFew(s);
    assert TracksRun(s, r);
    OneMoreNote(s.log, n, r);
    hide InEpisode, Streak, GivenUp, ProperLog, Tracks;
    if Conflicts(s, r) + 1 < MAX_PREPARING_CONFLICTS || !answer.Conflict? {
      NoteKeeps(s, s', n);
    } else {
      EscalationKeeps(s, s', r);
    }
  }

  // The third conflict in a row and its escalation.
  lemma EscalationKeeps(s: State, s': State, r: RunId)
    requires Tracks(s) && ProperLog(s.log) && Conflicts(s, r) == MAX_PREPARING_CONFLICTS - 1
    requires s' == AfterStop(s, r, Conflict)
    ensures Tracks(s') && ProperLog(s'.log)
  {
    var log1 := s.log + [StopAnswered(r, Conflict)];
    hide InEpisode, Streak, GivenUp, ProperLog;
    assert TracksRun(s, r);
    OneMoreNote(s.log, StopAnswered(r, Conflict), r);
    LogGrows(s.log, StopAnswered(r, Conflict));
    LogGrows(log1, Escalated(r));
    forall q ensures TracksRun(s', q) {
      assert TracksRun(s, q);
      OneMoreNote(s.log, StopAnswered(r, Conflict), q);
      OneMoreNote(log1, Escalated(r), q);
    }
  }

  lemma EndKeeps(s: State, tick: TickId)
    requires Inv(s) && tick in s.ticks
    ensures Inv(EndSegment(s, tick))
  {
    var s' := EndSegment(s, tick);
    var n := Present(s.ticks[tick].seen);
    forall r: RunId ensures Follows(s, s', n, r) && Conflicts(s', r) < MAX_PREPARING_CONFLICTS {
      EndFollows(s, tick, r);
    }
    assert Tracks(s) && ProperLog(s.log) && Proper(s.log, n) && s'.log == s.log + [n];
    assert OneTick(s');
    hide *;
    NoteKeeps(s, s', n);
    assert Inv(s') by { Together(s'); }
  }

  lemma Together(s: State)
    requires Tracks(s) && ProperLog(s.log) && OneTick(s)
    ensures Inv(s)
  {
  }

  lemma EndFollows(s: State, tick: TickId, r: RunId)
    requires Tracks(s) && tick in s.ticks
    ensures var s' := EndSegment(s, tick);
      Follows(s, s', Present(s.ticks[tick].seen), r) && Conflicts(s', r) < MAX_PREPARING_CONFLICTS
  {
    assert TracksRun(s, r);
    hide InEpisode, Streak, GivenUp;
  }

  lemma NotedKeeps(s: State, s': State, n: Note)
    requires Inv(s) && (n.Active? || n.Acknowledged?)
    requires s'.log == s.log + [n] && s'.stalledNotified == s.stalledNotified - {n.run}
    requires s'.preparingConflicts == s.preparingConflicts && s'.preparingEscalated == s.preparingEscalated
    requires s'.ticks == s.ticks && s'.ticking == s.ticking
    ensures Inv(s')
  {
    ConflictsAreFew(s);
    hide InEpisode, Streak, GivenUp, ProperLog, Tracks;
    NoteKeeps(s, s', n);
  }

  // A step that leaves history and bookkeeping alone.
  lemma QuietKeeps(s: State, s': State)
    requires Inv(s) && OneTick(s') && s'.log == s.log
    requires s'.stalledNotified == s.stalledNotified
    requires s'.preparingConflicts == s.preparingConflicts && s'.preparingEscalated == s.preparingEscalated
    ensures Inv(s')
  {
    hide InEpisode, Streak, GivenUp, ProperLog;
    forall r ensures TracksRun(s', r) { assert TracksRun(s, r); }
  }

  lemma VisitKeeps(s: State, tick: TickId, config: Option<Config>)
    requires Inv(s) && Enabled(s, Visit(tick, config))
    ensures Inv(VisitSegment(s, tick, config))
  {
    var t := s.ticks[tick];
    var run := t.rest[0];
    var s1 := s.(ticks := s.ticks[tick := t.(rest := t.rest[1..], seen := t.seen + {run.id})]);
    assert OneTick(s1);
    QuietKeeps(s, s1);
    hide Tracks, ProperLog, InEpisode, Streak, GivenUp;
    if config.Some? {
      if StopsPreparing(s, run, config.value, t.now) {
        AskingKeeps(s1, tick, run, config.value);
      } else {
        CheckIdleKeeps(s1, tick, run, config.value);
      }
    }
  }

  lemma AskingKeeps(s: State, tick: TickId, run: Run, config: Config)
    requires Inv(s) && tick in s.ticks && run.id !in s.preparingEscalated
    ensures Inv(Staged(s.(log := s.log + [StopAsked(run.id)]), tick, StoppingPreparing(run, config)))
  {
    var s' := Staged(s.(log := s.log + [StopAsked(run.id)]), tick, StoppingPreparing(run, config));
    ConflictsAreFew(s);
    assert TracksRun(s, run.id);
    assert OneTick(s');
    hide InEpisode, Streak, GivenUp, ProperLog, Tracks;
    NoteKeeps(s, s', StopAsked(run.id));
  }

  lemma StepKeeps(s: State, l: Label)
    requires Inv(s) && Enabled(s, l)
    ensures Inv(Apply(s, l))
  {
    hide Tracks, ProperLog, CheckIdle, AfterStop;
    match l
    case Visit(t, config) => VisitKeeps(s, t, config);
    case PreparingAnswered(t, answer) =>
      var StoppingPreparing(run, config) := s.ticks[t].stage;
      AfterStopKeeps(s, run.id, answer);
      assert t in AfterStop(s, run.id, answer).ticks by { SameTicks(s, run.id, answer); }
      CheckIdleKeeps(AfterStop(s, run.id, answer), t, run, config);
    case TickEnds(t) => EndKeeps(s, t);
    case NoteActivity(r, at) => if !s.disposed { NotedKeeps(s, Apply(s, l), Active(r)); }
    case AcknowledgeIdle(r, at, updated) => if updated { NotedKeeps(s, Apply(s, l), Acknowledged(r)); }
    case TickFires(t, listed, now) =>
      assert OneTick(Apply(s, l));
      QuietKeeps(s, Apply(s, l));
    case IdleAnswered(t) =>
      assert OneTick(Apply(s, l));
      QuietKeeps(s, Apply(s, l));
    case TickThrows(t) =>
      assert OneTick(Apply(s, l));
      QuietKeeps(s, Apply(s, l));
    case Dispose =>
      QuietKeeps(s, Apply(s, l));
  }

  lemma SameTicks(s: State, r: RunId, answer: Answer)
    ensures AfterStop(s, r, answer).ticks == s.ticks
  {
  }

  /**
   * Over every run of the watchdog: ticks never overlap, a run is notified once
   * per stall episode, and the preparing check escalates at the third conflict in
   * a row and leaves the run alone until it leaves the active set.
   */
  lemma {:induction false} EveryRunIsProper(s: State, trace: seq<Label>)
    requires Inv(s) && IsRun(s, trace)
    ensures Inv(After(s, trace))
    decreases |trace|
  {
    if trace != [] {
      hide Inv, Apply, Enabled;
      StepKeeps(s, trace[0]);
      EveryRunIsProper(Apply(s, trace[0]), trace[1..]);
    }
  }

  lemma StartIsProper()
    ensures Inv(START)
  {
  }

  /** From a fresh watchdog on, whatever the ticks and notes are. */
  lemma EveryLifeIsProper(trace: seq<Label>)
    requires IsRun(START, trace)
    ensures OneTick(After(START, trace)) && ProperLog(After(START, trace).log)
  {
    StartIsProper();
    EveryRunIsProper(START, trace);
    hide IsRun, After;
  }

  /**
   * Between two notifications of a run something ended the first episode:
   * activity, an acknowledgement, a check below the threshold, or a completed
   * tick that did not see the run.
   */
  lemma {:induction false} EpisodesAreSeparated(log: seq<Note>, r: RunId, i: nat, j: nat)
    requires ProperLog(log) && i < j < |log| && log[i] == IdleStalled(r) && log[j] == IdleStalled(r)
    ensures exists k :: i < k < j && EndsEpisode(log[k], r)
  {
    assert Proper(log[..j], log[j]);
    if forall k | i < k < j :: !EndsEpisode(log[k], r) {
      EpisodeLasts(log, r, i, j);
    }
  }

  lemma {:induction false} EpisodeLasts(log: seq<Note>, r: RunId, i: nat, j: nat)
    requires i < j <= |log| && log[i] == IdleStalled(r)
    requires forall k | i < k < j :: !EndsEpisode(log[k], r)
    ensures InEpisode(log[..j], r)
    decreases j
  {
    assert log[..j] == log[..j - 1] + [log[j - 1]];
    OneMoreNote(log[..j - 1], log[j - 1], r);
    if i < j - 1 {
      EpisodeLasts(log, r, i, j - 1);
    }
  }

  /** After an escalation no stop is asked of the run until a completed tick misses it. */
  lemma {:induction false} GivenUpIsLeftAlone(log: seq<Note>, r: RunId, i: nat, j: nat)
    requires ProperLog(log) && i < j < |log| && log[i] == Escalated(r) && log[j] == StopAsked(r)
    ensures exists k :: i < k < j && Misses(log[k], r)
  {
    assert Proper(log[..j], log[j]);
    if forall k | i < k < j :: !Misses(log[k], r) {
      GivenUpLasts(log, r, i, j);
    }
  }

  lemma {:induction false} GivenUpLasts(log: seq<Note>, r: RunId, i: nat, j: nat)
    requires i < j <= |log| && log[i] == Escalated(r)
    requires forall k | i < k < j :: !Misses(log[k], r)
    ensures GivenUp(log[..j], r)
    decreases j
  {
    assert log[..j] == log[..j - 1] + [log[j - 1]];
    OneMoreNote(log[..j - 1], log[j - 1], r);
    if i < j - 1 {
      GivenUpLasts(log, r, i, j - 1);
    }
  }
}
