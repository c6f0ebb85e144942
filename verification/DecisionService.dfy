/**
 * createDecisionService in its own form (decision-service.ts 136-416): an object
 * over the decision table whose calls are cut at every repository and handler
 * call.  Each method takes exactly the step its label names.
 */
module DecisionService {
  import opened Common
  import opened Decisions
  import opened DecisionRuns

  class Service {
    var rows: Rows
    var frames: map<Call, Frame>
    var handlers: map<Kind, seq<HandlerId>>
    var disposed: bool
    var announced: seq<DecisionId>
    ghost var closes: seq<Close>
    ghost var dispatched: seq<Dispatch>
    ghost var fired: seq<(HandlerId, DecisionId)>

    constructor (stored: Rows)
      requires OneOpenPerKey(stored) && AnswersValid(stored)
      ensures Initial(View()) && rows == stored
    {
      rows, frames, handlers, disposed := stored, map[], map[], false;
      announced, closes, dispatched, fired := [], [], [], [];
    }

    ghost function View(): State
      reads this
    {
      State(rows, frames, handlers, disposed, announced, closes, dispatched, fired)
    }

    method Open(call: Call, input: Input, now: int)
      requires Enabled(View(), OpenCall(call, input, now))
      modifies this
      ensures View() == Apply(old(View()), OpenCall(call, input, now))
    {
      if disposed {
        return;
      }
      if input.detailKind != input.kind {
        return;
      }
      if |input.options| == 0 {
        return;
      }
      if KeyTaken(rows, input.dedupeKey) {
        return;
      }
      var expiresAt := None;
      if input.timeoutMs > 0 {
        expiresAt := Some(now + input.timeoutMs);
      }
      frames := frames[call := Inserting(input, expiresAt)];
    }

    // The repository's insert; a unique violation changes nothing.
    method Insert(call: Call, id: DecisionId)
      requires Enabled(View(), Decisions.Insert(call, id))
      modifies this
      ensures View() == Apply(old(View()), Decisions.Insert(call, id))
    {
      var Inserting(input, expiresAt) := frames[call];
      frames := frames - {call};
      if id in rows || KeyTaken(rows, input.dedupeKey) {
        return;
      }
      rows := rows[id := Decision(input, expiresAt, Status.Open, None)];
      announced := announced + [id];
    }

    method Resolve(call: Call, id: DecisionId, option: OptionId, decidedBy: DecidedBy)
      requires Enabled(View(), Decisions.Resolve(call, id, option, decidedBy))
      modifies this
      ensures View() == Apply(old(View()), Decisions.Resolve(call, id, option, decidedBy))
    {
      if id !in rows {
        return;
      }
      if !rows[id].status.Open? {
        return;
      }
      if option !in rows[id].input.options {
        return;
      }
      frames := frames[call := Closing(ByResolve(option, decidedBy), [Due(id, rows[id].input)])];
    }

    method Expire(call: Call, now: int, order: seq<DecisionId>)
      requires Enabled(View(), Decisions.Expire(call, now, order))
      modifies this
      ensures View() == Apply(old(View()), Decisions.Expire(call, now, order))
    {
      frames := frames[call := Closing(ByTimeout(now), Listed(rows, order))];
    }

    method CancelBySource(call: Call, runId: Option<string>, workflowRunId: Option<string>, order: seq<DecisionId>)
      requires Enabled(View(), Decisions.CancelBySource(call, runId, workflowRunId, order))
      modifies this
      ensures View() == Apply(old(View()), Decisions.CancelBySource(call, runId, workflowRunId, order))
    {
      frames := frames[call := Closing(BySource(runId, workflowRunId), Listed(rows, order))];
    }

    method ReconcileOnStartup(call: Call, order: seq<DecisionId>)
      requires Enabled(View(), Reconcile(call, order))
      modifies this
      ensures View() == Apply(old(View()), Reconcile(call, order))
    {
      frames := frames[call := Closing(ByStartup, Listed(rows, order))];
    }

    // UPDATE ... WHERE id = ? AND status = 'open': whether a row changed.
    method CloseOpen(id: DecisionId, status: Status, resolution: Option<Resolution>) returns (changed: bool)
      modifies this`rows
      ensures changed <==> id in old(rows) && old(rows)[id].status.Open?
      ensures rows == if changed then old(rows)[id := old(rows)[id].(status := status, resolution := resolution)] else old(rows)
    {
      changed := id in rows && rows[id].status.Open?;
      if changed {
        rows := rows[id := rows[id].(status := status, resolution := resolution)];
      }
    }

    // One round of the loop over the listed rows.
    method CloseNext(call: Call, reread: bool)
      requires Enabled(View(), Decisions.CloseNext(call, reread))
      modifies this
      ensures View() == Apply(old(View()), Decisions.CloseNext(call, reread))
    {
      var Closing(mode, due) := frames[call];
      if |due| == 0 {
        frames := frames - {call};
        return;
      }
      var d, rest := due[0], due[1..];
      var changed := CloseOpen(d.id, mode.Status(), Answer(mode, d.input));
      if !changed {
        frames := frames[call := Closing(mode, rest)];
        return;
      }
      closes := closes + [Close(d.id, mode, reread)];
      if !reread {
        frames := frames - {call};
      } else if !mode.Notifies() {
        frames := frames[call := Closing(mode, rest)];
      } else {
        var subscribed := if d.input.kind in handlers then handlers[d.input.kind] else [];
        dispatched := dispatched + [Dispatch(d.id, subscribed)];
        frames := frames[call := Dispatching(d.id, subscribed, mode, rest)];
      }
    }

    // One handler of the dispatch; what it throws is caught.
    method Fire(call: Call)
      requires Enabled(View(), Decisions.Fire(call))
      modifies this
      ensures View() == Apply(old(View()), Decisions.Fire(call))
    {
      var Dispatching(id, pending, mode, due) := frames[call];
      if |pending| == 0 {
        frames := frames[call := Closing(mode, due)];
        return;
      }
      fired := fired + [(pending[0], id)];
      frames := frames[call := Dispatching(id, pending[1..], mode, due)];
    }

    // A repository call that fails ends the service call.
    method Abort(call: Call)
      requires Enabled(View(), Decisions.Abort(call))
      modifies this
      ensures View() == Apply(old(View()), Decisions.Abort(call))
    {
      frames := frames - {call};
    }

    method OnResolved(kind: Kind, handler: HandlerId)
      modifies this
      ensures View() == Apply(old(View()), Subscribe(kind, handler))
    {
      var subscribed := if kind in handlers then handlers[kind] else [];
      if handler !in subscribed {
        handlers := handlers[kind := subscribed + [handler]];
      }
    }

    method Unsubscribe(kind: Kind, handler: HandlerId)
      modifies this
      ensures View() == Apply(old(View()), Decisions.Unsubscribe(kind, handler))
    {
      var subscribed := if kind in handlers then handlers[kind] else [];
      handlers := handlers[kind := Without(subscribed, handler)];
    }

    method Dispose()
      modifies this
      ensures View() == Apply(old(View()), Decisions.Dispose)
    {
      disposed := true;
      handlers := map[];
    }

    method Perform(l: Label)
      requires Enabled(View(), l)
      modifies this
      ensures View() == Apply(old(View()), l)
    {
      match l
      case OpenCall(call, input, now) => Open(call, input, now);
      case Insert(call, id) => Insert(call, id);
      case Resolve(call, id, option, decidedBy) => Resolve(call, id, option, decidedBy);
      case Expire(call, now, order) => Expire(call, now, order);
      case CancelBySource(call, r, w, order) => CancelBySource(call, r, w, order);
      case Reconcile(call, order) => ReconcileOnStartup(call, order);
      case CloseNext(call, reread) => CloseNext(call, reread);
      case Fire(call) => Fire(call);
      case Abort(call) => Abort(call);
      case Subscribe(kind, h) => OnResolved(kind, h);
      case Unsubscribe(kind, h) => Unsubscribe(kind, h);
      case Dispose => Dispose();
    }

    /** Any interleaving of service, repository and handler calls keeps the inbox. */
    method Serve(trace: seq<Label>)
      requires Initial(View()) && IsRun(View(), trace)
      modifies this
      ensures View() == After(old(View()), trace)
      ensures TableInv(View()) && NoticeInv(View()) && RowsKept(old(rows), rows)
      ensures LeavesMatch(View(), ClosedIn(old(rows)))
    {
      ghost var s0 := View();
      InitialInv(s0);
      EveryRunKeepsTheInbox(s0, trace);
      EveryRunRecordsItsCloses(s0, trace, ClosedIn(s0.rows));
      hide *;
      var i := 0;
      while i < |trace|
        invariant 0 <= i <= |trace|
        invariant IsRun(View(), trace[i..]) && After(View(), trace[i..]) == After(s0, trace)
      {
        FirstStep(View(), trace[i..]);
        assert trace[i..][0] == trace[i] && trace[i..][1..] == trace[i + 1..];
        Perform(trace[i]);
        i := i + 1;
      }
      NoStep(View(), trace[i..]);
      assert View() == After(s0, trace);
      assert s0.rows == old(rows) && View().rows == rows by { Fields(); }
    }

    lemma Fields()
      ensures View().rows == rows
    {
    }
  }

  lemma FirstStep(s: State, trace: seq<Label>)
    requires IsRun(s, trace) && trace != []
    ensures Enabled(s, trace[0]) && IsRun(Apply(s, trace[0]), trace[1..])
    ensures After(s, trace) == After(Apply(s, trace[0]), trace[1..])
  {
    hide Enabled, Apply;
  }

  lemma NoStep(s: State, trace: seq<Label>)
    requires IsRun(s, trace) && trace == []
    ensures After(s, trace) == s
  {
  }
}
