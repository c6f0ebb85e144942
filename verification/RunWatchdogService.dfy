/**
 * createRunWatchdogService in its own form (run-watchdog-service.ts 127-371):
 * maps, sets and a flag updated in place, one method per segment.
 */
module RunWatchdogService {
  import opened Common
  import opened RunWatchdog

  class Service {
    var preparingConflicts: map<RunId, nat>
    var preparingEscalated: set<RunId>
    var stalledNotified: set<RunId>
    var notedActivity: map<RunId, int>
    var ticking: bool
    var disposed: bool
    var ticks: map<TickId, Tick>
    ghost var log: seq<Note>

    constructor ()
      ensures View() == START
    {
      preparingConflicts, preparingEscalated, stalledNotified, notedActivity := map[], {}, {}, map[];
      ticking, disposed, ticks, log := false, false, map[], [];
    }

    ghost function View(): State
      reads this
    {
      State(preparingConflicts, preparingEscalated, stalledNotified, notedActivity, ticking, disposed, ticks, log)
    }

    method NoteActivity(r: RunId, at: int)
      modifies this
      ensures View() == Apply(old(View()), RunWatchdog.NoteActivity(r, at))
    {
      if disposed {
        return;
      }
      notedActivity := notedActivity[r := at];
      stalledNotified := stalledNotified - {r};
      log := log + [Active(r)];
    }

    method AcknowledgeIdle(r: RunId, at: int, updated: bool)
      modifies this
      ensures View() == Apply(old(View()), RunWatchdog.AcknowledgeIdle(r, at, updated))
    {
      if !updated {
        return;
      }
      notedActivity := notedActivity[r := at];
      stalledNotified := stalledNotified - {r};
      log := log + [Acknowledged(r)];
    }

    method TickFires(tick: TickId, listed: Option<seq<Run>>, now: int)
      requires Enabled(View(), RunWatchdog.TickFires(tick, listed, now))
      modifies this
      ensures View() == Apply(old(View()), RunWatchdog.TickFires(tick, listed, now))
    {
      if disposed || ticking {
        return;
      }
      if listed.None? {
        return;
      }
      ticking := true;
      ticks := ticks[tick := Tick(now, listed.value, {}, NextRun)];
    }

    // checkIdle up to its await.
    method Check(tick: TickId, run: Run, config: Config)
      requires tick in ticks
      modifies this
      ensures View() == CheckIdle(old(View()), tick, run, config)
    {
      var t := ticks[tick];
      ticks := ticks[tick := t.(stage := NextRun)];
      if config.idleTimeoutMs == 0 {
        return;
      }
      var noted := if run.id in notedActivity then Some(notedActivity[run.id]) else None;
      if !PossiblyStalled(run, noted, t.now, config.idleTimeoutMs) {
        stalledNotified := stalledNotified - {run.id};
        log := log + [BelowThreshold(run.id)];
        return;
      }
      var firstNotification := run.id !in stalledNotified;
      if firstNotification {
        stalledNotified := stalledNotified + {run.id};
        log := log + [IdleStalled(run.id)];
      }
      assert stalledNotified == old(stalledNotified) + {run.id};
      if config.idleAction.Ask? {
        return;
      }
      ticks := ticks[tick := t.(stage := StoppingIdle)];
    }

    method Visit(tick: TickId, config: Option<Config>)
      requires Enabled(View(), RunWatchdog.Visit(tick, config))
      modifies this
      ensures View() == Apply(old(View()), RunWatchdog.Visit(tick, config))
    {
      hide PossiblyStalled, CheckIdle;
      var t := ticks[tick];
      var run := t.rest[0];
      ticks := ticks[tick := t.(rest := t.rest[1..], seen := t.seen + {run.id})];
      if config.None? {
        return;
      }
      if run.preparing && Max(0, t.now - run.updatedAt) >= config.value.preparingTimeoutMs
         && run.id !in preparingEscalated {
        log := log + [StopAsked(run.id)];
        ticks := ticks[tick := ticks[tick].(stage := StoppingPreparing(run, config.value))];
      } else {
        Check(tick, run, config.value);
      }
    }

    method PreparingAnswered(tick: TickId, answer: Answer)
      requires Enabled(View(), RunWatchdog.PreparingAnswered(tick, answer))
      modifies this
      ensures View() == Apply(old(View()), RunWatchdog.PreparingAnswered(tick, answer))
    {
      hide PossiblyStalled, CheckIdle;
      var StoppingPreparing(run, config) := ticks[tick].stage;
      RecordAnswer(run.id, answer);
      Check(tick, run, config);
    }

    method RecordAnswer(r: RunId, answer: Answer)
      modifies this
      ensures View() == AfterStop(old(View()), r, answer)
    {
      log := log + [StopAnswered(r, answer)];
      if !answer.Conflict? {
        preparingConflicts := preparingConflicts - {r};
        return;
      }
      var conflicts := (if r in preparingConflicts then preparingConflicts[r] else 0) + 1;
      preparingConflicts := preparingConflicts[r := conflicts];
      if conflicts >= MAX_PREPARING_CONFLICTS {
        preparingConflicts := preparingConflicts - {r};
        assert preparingConflicts == old(preparingConflicts) - {r};
        preparingEscalated := preparingEscalated + {r};
        log := log + [Escalated(r)];
      }
    }

    method IdleAnswered(tick: TickId)
      requires Enabled(View(), RunWatchdog.IdleAnswered(tick))
      modifies this
      ensures View() == Apply(old(View()), RunWatchdog.IdleAnswered(tick))
    {
      ticks := ticks[tick := ticks[tick].(stage := NextRun)];
    }

    method TickEnds(tick: TickId)
      requires Enabled(View(), RunWatchdog.TickEnds(tick))
      modifies this
      ensures View() == Apply(old(View()), RunWatchdog.TickEnds(tick))
    {
      var seen := ticks[tick].seen;
      preparingConflicts := map r | r in preparingConflicts && r in seen :: preparingConflicts[r];
      preparingEscalated := set r | r in preparingEscalated && r in seen;
      stalledNotified := set r | r in stalledNotified && r in seen;
      notedActivity := map r | r in notedActivity && r in seen :: notedActivity[r];
      ticks := ticks - {tick};
      ticking := false;
      log := log + [Present(seen)];
    }

    method TickThrows(tick: TickId)
      requires Enabled(View(), RunWatchdog.TickThrows(tick))
      modifies this
      ensures View() == Apply(old(View()), RunWatchdog.TickThrows(tick))
    {
      ticks := ticks - {tick};
      ticking := false;
    }

    method Dispose()
      modifies this
      ensures View() == Apply(old(View()), RunWatchdog.Dispose)
    {
      disposed := true;
    }
  }
}
