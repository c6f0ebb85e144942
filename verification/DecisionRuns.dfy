/**
 * What the decision inbox keeps over every interleaving: one open row per key,
 * one close per row, answers among the row's options, and handlers told exactly
 * once for a resolution or a timeout.
 */
module DecisionRuns {
  import opened Common
  import opened Decisions

  /** At most one open row per dedupe key. */
  ghost predicate OneOpenPerKey(rows: Rows) {
    forall a, b | a in rows && b in rows && rows[a].status.Open? && rows[b].status.Open? && a != b ::
      rows[a].input.dedupeKey != rows[b].input.dedupeKey
  }

  /** A resolved or expired row names one of its own options; open and cancelled rows name none. */
  ghost predicate AnswersItself(d: Decision) {
    && d.input.options != []
    && (if d.status.Resolved? || d.status.Expired? then d.resolution.Some? && d.resolution.value.option in d.input.options
        else d.resolution.None?)
  }

  ghost predicate AnswersValid(rows: Rows) {
    forall id | id in rows :: AnswersItself(rows[id])
  }

  // What suspended calls hold on to is still true of the rows.
  ghost predicate FrameValid(rows: Rows, f: Frame) {
    if f.Inserting? then f.input.options != []
    else
      forall d | d in f.due :: d.id in rows && rows[d.id].input == d.input && Fits(rows[d.id], f.mode)
  }

  // The row is one that the service call may close.
  predicate Fits(d: Decision, mode: Mode) {
    match mode
    case ByResolve(option, _) => option in d.input.options
    case ByTimeout(now) => IsDue(d, now)
    case BySource(runId, workflowRunId) => FromSource(d, runId, workflowRunId)
    case ByStartup => OfShell(d)
  }

  ghost predicate FramesValid(s: State) {
    forall c | c in s.frames :: FrameValid(s.rows, s.frames[c])
  }

  ghost predicate ClosedAt(closes: seq<Close>, id: DecisionId) {
    exists x :: x in closes && x.id == id
  }

  /** Every close is of a different row, one it may close, and the row has its status and answer. */
  ghost predicate ClosesMatch(s: State) {
    && (forall i, j | 0 <= i < j < |s.closes| :: s.closes[i].id != s.closes[j].id)
    && (forall x | x in s.closes :: x.id in s.rows && ClosedBy(s.rows[x.id], x.mode))
  }

  ghost predicate ClosedBy(d: Decision, mode: Mode) {
    d.status == mode.Status() && d.resolution == Answer(mode, d.input) && Fits(d, mode)
  }

  // The closes whose handlers are to be told.
  function Told(closes: seq<Close>): seq<DecisionId> {
    if closes == [] then []
    else
      var x := closes[|closes| - 1];
      Told(closes[..|closes| - 1]) + if x.reread && x.mode.Notifies() then [x.id] else []
  }

  function Ids(dispatched: seq<Dispatch>): seq<DecisionId> {
    seq(|dispatched|, i requires 0 <= i < |dispatched| => dispatched[i].id)
  }

  /** There is one dispatch per resolution or timeout, in the order of the closes, and no other. */
  ghost predicate DispatchesMatch(s: State) {
    Ids(s.dispatched) == Told(s.closes)
  }

  ghost predicate HandlersDistinct(s: State) {
    && (forall k | k in s.handlers :: NoDuplicates(s.handlers[k]))
    && (forall x | x in s.dispatched :: NoDuplicates(x.handlers))
  }

  ghost predicate Pending(s: State, h: HandlerId, id: DecisionId) {
    exists c :: c in s.frames && s.frames[c].Dispatching? && s.frames[c].id == id && h in s.frames[c].pending
  }

  /**
   * Every handler of a dispatch has fired for it once or is still to fire, and
   * none fires outside a dispatch.
   */
  ghost predicate FiringsMatch(s: State) {
    && NoDuplicates(s.fired)
    && (forall x, h | x in s.dispatched && h in x.handlers :: (h, x.id) in s.fired || Pending(s, h, x.id))
    && (forall p | p in s.fired :: exists x :: x in s.dispatched && x.id == p.1 && p.0 in x.handlers)
    && (forall c | c in s.frames && s.frames[c].Dispatching? :: DispatchFrame(s, s.frames[c]))
    && (forall c, c' | c in s.frames && c' in s.frames && c != c' && s.frames[c].Dispatching? && s.frames[c'].Dispatching? ::
          s.frames[c].id != s.frames[c'].id)
  }

  // The handlers a dispatch still has to call are some of its own, not yet called.
  ghost predicate DispatchFrame(s: State, f: Frame)
    requires f.Dispatching?
  {
    && NoDuplicates(f.pending)
    && (forall h | h in f.pending :: (h, f.id) !in s.fired)
    && (exists x :: x in s.dispatched && x.id == f.id && forall h | h in f.pending :: h in x.handlers)
  }

  ghost predicate TableInv(s: State) {
    OneOpenPerKey(s.rows) && AnswersValid(s.rows) && FramesValid(s) && ClosesMatch(s)
  }

  ghost predicate NoticeInv(s: State) {
    DispatchesMatch(s) && HandlersDistinct(s) && FiringsMatch(s)
  }

  // A closed row never changes again; an open one keeps what it was opened with.
  ghost predicate RowsKept(rows: Rows, rows': Rows) {
    forall id | id in rows ::
      && id in rows' && rows'[id].input == rows[id].input && rows'[id].expiresAt == rows[id].expiresAt
      && (!rows[id].status.Open? ==> rows'[id] == rows[id])
  }

  lemma DefaultIsAnOption(input: Input)
    requires input.options != []
    ensures TimeoutDefaultOption(input) in input.options
  {
    if input.kind.TimeoutDefault() !in input.options { assert input.options[0] in input.options; }
  }

  // ---- the table ----

  lemma FramesSurvive(s: State, rows': Rows, c: Call)
    requires FramesValid(s) && RowsKept(s.rows, rows') && c in s.frames
    ensures FrameValid(rows', s.frames[c])
  {
  }

  // A step that leaves rows and closes alone.
  lemma TableUntouched(s: State, s': State)
    requires TableInv(s) && s'.rows == s.rows && s'.closes == s.closes
    requires forall c | c in s'.frames :: (c in s.frames && s'.frames[c] == s.frames[c]) || FrameValid(s.rows, s'.frames[c])
    ensures TableInv(s') && RowsKept(s.rows, s'.rows)
  {
  }

  lemma InsertKeepsTable(s: State, call: Call, id: DecisionId)
    requires TableInv(s) && Enabled(s, Insert(call, id))
    ensures var s' := InsertSegment(s, call, id); TableInv(s') && RowsKept(s.rows, s'.rows)
  {
    var s' := InsertSegment(s, call, id);
    var f := s.frames[call];
    assert FrameValid(s.rows, f);
    if id !in s.rows && !KeyTaken(s.rows, f.input.dedupeKey) {
      forall c | c in s'.frames ensures FrameValid(s'.rows, s'.frames[c]) {
        FramesSurvive(s, s'.rows, c);
      }
    }
  }

  lemma CloseKeepsTable(s: State, call: Call, mode: Mode, d: Due, rest: seq<Due>, reread: bool)
    requires TableInv(s) && call in s.frames && s.frames[call] == Closing(mode, [d] + rest)
    requires d.id in s.rows && s.rows[d.id].status.Open?
    ensures var s' := CloseSegment(s, call, mode, d, rest, reread); TableInv(s') && RowsKept(s.rows, s'.rows)
  {
    var s' := CloseSegment(s, call, mode, d, rest, reread);
    assert FrameValid(s.rows, s.frames[call]) && d in [d] + rest;
    assert s.rows[d.id].input == d.input;
    assert AnswersItself(s.rows[d.id]);
    DefaultIsAnOption(d.input);
    ClosedRowKeepsTable(s.rows, d.id, mode);
    assert forall x | x in rest :: x in [d] + rest;
    forall c | c in s'.frames ensures FrameValid(s'.rows, s'.frames[c]) {
      if c != call { FramesSurvive(s, s'.rows, c); }
    }
    OneMoreClose(s, s', Close(d.id, mode, reread));
  }

  lemma ClosedRowKeepsTable(rows: Rows, id: DecisionId, mode: Mode)
    requires OneOpenPerKey(rows) && AnswersValid(rows) && id in rows && rows[id].status.Open?
    requires Fits(rows[id], mode)
    ensures var rows' := rows[id := rows[id].(status := mode.Status(), resolution := Answer(mode, rows[id].input))];
      OneOpenPerKey(rows') && AnswersValid(rows') && RowsKept(rows, rows')
  {
    assert AnswersItself(rows[id]);
    DefaultIsAnOption(rows[id].input);
  }

  lemma OneMoreClose(s: State, s': State, x: Close)
    requires ClosesMatch(s) && RowsKept(s.rows, s'.rows) && s'.closes == s.closes + [x]
    requires x.id in s.rows && s.rows[x.id].status.Open? && ClosedBy(s'.rows[x.id], x.mode)
    ensures ClosesMatch(s')
  {
    forall y | y in s.closes ensures y.id != x.id && s'.rows[y.id] == s.rows[y.id] {
      assert ClosedBy(s.rows[y.id], y.mode);
    }
    forall i, j | 0 <= i < j < |s'.closes| ensures s'.closes[i].id != s'.closes[j].id {
      assert s'.closes[i] in s.closes;
    }
  }

  lemma CloseNextKeepsTable(s: State, call: Call, reread: bool)
    requires TableInv(s) && Enabled(s, CloseNext(call, reread))
    ensures var s' := CloseNextSegment(s, call, reread); TableInv(s') && RowsKept(s.rows, s'.rows)
  {
    var Closing(mode, due) := s.frames[call];
    assert FrameValid(s.rows, s.frames[call]);
    if due == [] {
      TableUntouched(s, CloseNextSegment(s, call, reread));
    } else if !s.rows[due[0].id].status.Open? {
      assert forall d | d in due[1..] :: d in due;
      TableUntouched(s, CloseNextSegment(s, call, reread));
    } else {
      assert due == [due[0]] + due[1..];
      hide TableInv, CloseSegment;
      CloseKeepsTable(s, call, mode, due[0], due[1..], reread);
    }
  }

  lemma ListedIsValid(rows: Rows, order: seq<DecisionId>, mode: Mode)
    requires forall id | id in order :: id in rows && Fits(rows[id], mode)
    ensures FrameValid(rows, Closing(mode, Listed(rows, order)))
  {
    var due := Listed(rows, order);
    forall d | d in due ensures d.id in rows && rows[d.id].input == d.input && Fits(rows[d.id], mode) {
      var i :| 0 <= i < |due| && due[i] == d;
      assert order[i] in order;
    }
  }

  lemma StepKeepsTable(s: State, l: Label)
    requires TableInv(s) && Enabled(s, l)
    ensures TableInv(Apply(s, l)) && RowsKept(s.rows, Apply(s, l).rows)
  {
    match l
    case OpenCall(call, input, now) => TableUntouched(s, Apply(s, l));
    case Insert(call, id) => InsertKeepsTable(s, call, id);
    case Resolve(call, id, option, decidedBy) => TableUntouched(s, Apply(s, l));
    case Expire(call, now, order) =>
      ListedIsValid(s.rows, order, ByTimeout(now));
      TableUntouched(s, Apply(s, l));
    case CancelBySource(call, r, w, order) =>
      ListedIsValid(s.rows, order, BySource(r, w));
      TableUntouched(s, Apply(s, l));
    case Reconcile(call, order) =>
      ListedIsValid(s.rows, order, ByStartup);
      TableUntouched(s, Apply(s, l));
    case CloseNext(call, reread) => CloseNextKeepsTable(s, call, reread);
    case Fire(call) =>
      assert FrameValid(s.rows, s.frames[call]);
      TableUntouched(s, Apply(s, l));
    case _ => TableUntouched(s, Apply(s, l));
  }

  // ---- the handlers ----

  lemma ToldMore(closes: seq<Close>, x: Close)
    ensures Told(closes + [x]) == Told(closes) + if x.reread && x.mode.Notifies() then [x.id] else []
  {
    assert (closes + [x])[..|closes|] == closes;
  }

  lemma {:induction false} ToldIsClosed(closes: seq<Close>)
    ensures forall id | id in Told(closes) :: ClosedAt(closes, id)
  {
    if closes != [] {
      var last := |closes| - 1;
      ToldIsClosed(closes[..last]);
      forall id | id in Told(closes) ensures ClosedAt(closes, id) {
        if id in Told(closes[..last]) {
          var x :| x in closes[..last] && x.id == id;
        } else {
          assert closes[last] in closes;
        }
      }
    }
  }

  // An open row was neither closed nor dispatched before.
  lemma OpenIsUntold(s: State, id: DecisionId)
    requires ClosesMatch(s) && DispatchesMatch(s) && id in s.rows && s.rows[id].status.Open?
    ensures forall x | x in s.dispatched :: x.id != id
  {
    ToldIsClosed(s.closes);
    forall x | x in s.dispatched ensures x.id != id {
      var i :| 0 <= i < |s.dispatched| && s.dispatched[i] == x;
      assert Ids(s.dispatched)[i] == x.id;
      assert x.id in Told(s.closes);
      var y :| y in s.closes && y.id == x.id;
      assert ClosedBy(s.rows[y.id], y.mode);
    }
  }

  // Steps that neither dispatch nor fire: no dispatching frame appears or goes.
  lemma NoticesUntouched(s: State, s': State)
    requires NoticeInv(s)
    requires s'.closes == s.closes && s'.dispatched == s.dispatched && s'.fired == s.fired
    requires forall k | k in s'.handlers :: NoDuplicates(s'.handlers[k])
    requires forall c :: c in s'.frames && s'.frames[c].Dispatching? <==> c in s.frames && s.frames[c].Dispatching?
    requires forall c | c in s.frames && s.frames[c].Dispatching? :: s'.frames[c] == s.frames[c]
    ensures NoticeInv(s')
  {
    hide Told, Ids, NoDuplicates;
    forall x, h | x in s.dispatched && h in x.handlers ensures (h, x.id) in s'.fired || Pending(s', h, x.id) {
      if Pending(s, h, x.id) {
        var c :| c in s.frames && s.frames[c].Dispatching? && s.frames[c].id == x.id && h in s.frames[c].pending;
        assert c in s'.frames && s'.frames[c] == s.frames[c];
      }
    }
    forall c | c in s'.frames && s'.frames[c].Dispatching? ensures DispatchFrame(s', s'.frames[c]) {
      assert DispatchFrame(s, s.frames[c]);
    }
  }

  lemma {:induction false} WithoutKeepsDistinct(hs: seq<HandlerId>, h: HandlerId)
    requires NoDuplicates(hs)
    ensures NoDuplicates(Without(hs, h)) && forall x | x in Without(hs, h) :: x in hs
  {
    if hs != [] {
      assert forall i, j | 0 <= i < j < |hs[1..]| :: hs[1..][i] == hs[i + 1] && hs[1..][j] == hs[j + 1];
      WithoutKeepsDistinct(hs[1..], h);
      if hs[0] != h {
        var rest := Without(hs[1..], h);
        forall j | 0 <= j < |rest| ensures rest[j] != hs[0] {
          assert rest[j] in hs[1..];
        }
      }
    }
  }

  lemma SubscribingKeepsNotices(s: State, s': State, kind: Kind, hs: seq<HandlerId>)
    requires NoticeInv(s) && NoDuplicates(hs) && s' == s.(handlers := s.handlers[kind := hs])
    ensures NoticeInv(s')
  {
    assert HandlersDistinct(s);
    NoticesUntouched(s, s');
  }

  lemma SubscribeKeepsNotices(s: State, kind: Kind, h: HandlerId)
    requires NoticeInv(s)
    ensures NoticeInv(SubscribeSegment(s, kind, h))
    ensures NoticeInv(UnsubscribeSegment(s, kind, h))
  {
    var hs := HandlersOf(s, kind);
    assert HandlersDistinct(s);
    assert NoDuplicates(hs);
    WithoutKeepsDistinct(hs, h);
    hide NoticeInv;
    SubscribingKeepsNotices(s, UnsubscribeSegment(s, kind, h), kind, Without(hs, h));
    if h !in hs {
      assert NoDuplicates(hs + [h]);
      SubscribingKeepsNotices(s, SubscribeSegment(s, kind, h), kind, hs + [h]);
    }
  }

  // A handler of the snapshot fires.
  lemma FireKeepsNotices(s: State, call: Call)
    requires NoticeInv(s) && Enabled(s, Fire(call)) && s.frames[call].pending != []
    ensures NoticeInv(FireSegment(s, call))
  {
    var s' := FireSegment(s, call);
    var f, f' := s.frames[call], s'.frames[call];
    var p := (f.pending[0], f.id);
    assert DispatchFrame(s, f);
    hide Told, Ids;
    assert f.pending[0] in f.pending && forall h | h in f.pending[1..] :: h in f.pending;
    FiredOnce(s.fired, p);
    forall x, h | x in s.dispatched && h in x.handlers ensures (h, x.id) in s'.fired || Pending(s', h, x.id) {
      StillPending(s, call, x.id, h);
    }
    forall q | q in s'.fired ensures exists x :: x in s'.dispatched && x.id == q.1 && q.0 in x.handlers {
      if q == p { assert DispatchFrame(s, f); } else { assert q in s.fired; }
    }
    forall c | c in s'.frames && s'.frames[c].Dispatching? ensures DispatchFrame(s', s'.frames[c]) {
      FrameAfterFire(s, call, c);
    }
  }

  lemma FiredOnce(fired: seq<(HandlerId, DecisionId)>, p: (HandlerId, DecisionId))
    requires NoDuplicates(fired) && p !in fired
    ensures NoDuplicates(fired + [p])
  {
  }

  lemma StillPending(s: State, call: Call, id: DecisionId, h: HandlerId)
    requires Enabled(s, Fire(call)) && s.frames[call].pending != []
    requires (h, id) in s.fired || Pending(s, h, id)
    ensures var s' := FireSegment(s, call); (h, id) in s'.fired || Pending(s', h, id)
  {
    var s' := FireSegment(s, call);
    if (h, id) !in s'.fired {
      var c :| c in s.frames && s.frames[c].Dispatching? && s.frames[c].id == id && h in s.frames[c].pending;
      if c == call {
        assert h != s.frames[call].pending[0];
        assert h in s.frames[call].pending[1..];
      }
      assert c in s'.frames && h in s'.frames[c].pending;
    }
  }

  lemma FrameAfterFire(s: State, call: Call, c: Call)
    requires FiringsMatch(s) && Enabled(s, Fire(call)) && s.frames[call].pending != []
    requires c in s.frames && s.frames[c].Dispatching?
    ensures var s' := FireSegment(s, call); DispatchFrame(s', s'.frames[c])
  {
    var s' := FireSegment(s, call);
    var g, g' := s.frames[c], s'.frames[c];
    assert DispatchFrame(s, g);
    var x :| x in s.dispatched && x.id == g.id && forall h | h in g.pending :: h in x.handlers;
    if c == call {
      assert forall h | h in g.pending[1..] :: h in g.pending;
      forall i, j | 0 <= i < j < |g'.pending| ensures g'.pending[i] != g'.pending[j] {
        assert g.pending[i + 1] != g.pending[j + 1];
      }
      forall h | h in g'.pending ensures (h, g'.id) !in s'.fired {
        var j :| 0 <= j < |g'.pending| && g'.pending[j] == h;
        assert g.pending[0] != g.pending[j + 1];
      }
    } else {
      assert g.id != s.frames[call].id;
    }
  }

  lemma EndDispatchKeepsNotices(s: State, call: Call)
    requires NoticeInv(s) && Enabled(s, Fire(call)) && s.frames[call].pending == []
    ensures NoticeInv(FireSegment(s, call))
  {
    var s' := FireSegment(s, call);
    hide Told, Ids, NoDuplicates;
    forall x, h | x in s.dispatched && h in x.handlers ensures (h, x.id) in s'.fired || Pending(s', h, x.id) {
      if Pending(s, h, x.id) {
        var c :| c in s.frames && s.frames[c].Dispatching? && s.frames[c].id == x.id && h in s.frames[c].pending;
        assert c in s'.frames && s'.frames[c] == s.frames[c];
      }
    }
    forall c | c in s'.frames && s'.frames[c].Dispatching? ensures DispatchFrame(s', s'.frames[c]) {
      assert DispatchFrame(s, s.frames[c]);
    }
  }

  // A close that tells nobody.
  lemma QuietCloseKeepsNotices(s: State, s': State, x: Close)
    requires NoticeInv(s) && s'.closes == s.closes + [x] && !(x.reread && x.mode.Notifies())
    requires s'.dispatched == s.dispatched && s'.fired == s.fired && s'.handlers == s.handlers
    requires forall c :: c in s'.frames && s'.frames[c].Dispatching? <==> c in s.frames && s.frames[c].Dispatching?
    requires forall c | c in s.frames && s.frames[c].Dispatching? :: s'.frames[c] == s.frames[c]
    ensures NoticeInv(s')
  {
    ToldMore(s.closes, x);
    assert Told(s'.closes) == Told(s.closes) + [] == Told(s.closes);
    hide Told, Ids;
    assert HandlersDistinct(s);
    NoticesUntouched(s, s'.(closes := s.closes));
    assert FiringsMatch(s') by { SameFirings(s'.(closes := s.closes), s'); }
  }

  lemma SameFirings(s: State, s': State)
    requires FiringsMatch(s) && s' == s.(closes := s'.closes, rows := s'.rows)
    ensures FiringsMatch(s')
  {
    hide NoDuplicates;
    forall x, h | x in s.dispatched && h in x.handlers ensures (h, x.id) in s'.fired || Pending(s', h, x.id) {
      if Pending(s, h, x.id) {
        var c :| c in s.frames && s.frames[c].Dispatching? && s.frames[c].id == x.id && h in s.frames[c].pending;
        assert c in s'.frames;
      }
    }
    forall c | c in s'.frames && s'.frames[c].Dispatching? ensures DispatchFrame(s', s'.frames[c]) {
      assert DispatchFrame(s, s.frames[c]);
    }
  }

  // One more dispatch, held by the frame of `call`, which held none before.
  ghost predicate Dispatches(s: State, s': State, call: Call, x0: Dispatch) {
    && s'.dispatched == s.dispatched + [x0] && s'.fired == s.fired
    && call in s'.frames && s'.frames[call].Dispatching? && s'.frames[call].id == x0.id && s'.frames[call].pending == x0.handlers
    && (call in s.frames ==> !s.frames[call].Dispatching?)
    && (forall c | c != call :: (c in s'.frames <==> c in s.frames) && (c in s.frames ==> s'.frames[c] == s.frames[c]))
  }

  lemma DispatchIsPending(s: State, s': State, call: Call, x0: Dispatch, x: Dispatch, h: HandlerId)
    requires FiringsMatch(s) && Dispatches(s, s', call, x0) && x in s'.dispatched && h in x.handlers
    ensures (h, x.id) in s'.fired || Pending(s', h, x.id)
  {
    if x in s.dispatched {
      if (h, x.id) !in s.fired {
        var c :| c in s.frames && s.frames[c].Dispatching? && s.frames[c].id == x.id && h in s.frames[c].pending;
        assert c in s'.frames && s'.frames[c] == s.frames[c];
      }
    } else {
      assert x == x0 && call in s'.frames && h in s'.frames[call].pending;
    }
  }

  lemma DispatchingKeepsFirings(s: State, s': State, call: Call, x0: Dispatch)
    requires FiringsMatch(s) && Dispatches(s, s', call, x0)
    requires (forall x | x in s.dispatched :: x.id != x0.id) && NoDuplicates(x0.handlers)
    ensures FiringsMatch(s')
  {
    forall x, h | x in s'.dispatched && h in x.handlers ensures (h, x.id) in s'.fired || Pending(s', h, x.id) {
      DispatchIsPending(s, s', call, x0, x, h);
    }
    forall p | p in s'.fired ensures exists x :: x in s'.dispatched && x.id == p.1 && p.0 in x.handlers {
      var x :| x in s.dispatched && x.id == p.1 && p.0 in x.handlers;
      assert x in s'.dispatched;
    }
    forall c | c in s'.frames && s'.frames[c].Dispatching? ensures DispatchFrame(s', s'.frames[c]) {
      DispatchFrameGrows(s, s', call, c, x0);
    }
    forall c | c in s'.frames && c != call && s'.frames[c].Dispatching? ensures s'.frames[c].id != x0.id {
      assert DispatchFrame(s, s.frames[c]);
    }
    hide NoDuplicates, Pending, DispatchFrame;
  }

  // A close that tells the handlers: one more dispatch, with its frame.
  lemma TellingCloseKeepsNotices(s: State, call: Call, mode: Mode, d: Due, rest: seq<Due>)
    requires NoticeInv(s) && call in s.frames && s.frames[call].Closing? && mode.Notifies() && d.id in s.rows
    requires forall x | x in s.dispatched :: x.id != d.id
    ensures NoticeInv(CloseSegment(s, call, mode, d, rest, true))
  {
    var s' := CloseSegment(s, call, mode, d, rest, true);
    var hs := HandlersOf(s, d.input.kind);
    assert HandlersDistinct(s) && NoDuplicates(hs);
    ToldMore(s.closes, Close(d.id, mode, true));
    assert Ids(s'.dispatched) == Ids(s.dispatched) + [d.id];
    assert Dispatches(s, s', call, Dispatch(d.id, hs));
    DispatchingKeepsFirings(s, s', call, Dispatch(d.id, hs));
    hide Told, Ids, FiringsMatch;
  }

  lemma DispatchFrameGrows(s: State, s': State, call: Call, c: Call, x0: Dispatch)
    requires FiringsMatch(s) && s'.fired == s.fired && s'.dispatched == s.dispatched + [x0]
    requires (forall x | x in s.dispatched :: x.id != x0.id) && NoDuplicates(x0.handlers)
    requires c in s'.frames && s'.frames[c].Dispatching?
    requires if c == call then s'.frames[c].id == x0.id && s'.frames[c].pending == x0.handlers
             else c in s.frames && s.frames[c] == s'.frames[c]
    ensures DispatchFrame(s', s'.frames[c])
  {
    if c == call {
      assert x0 in s'.dispatched;
      forall p | p in s.fired ensures p.1 != x0.id {
        var x :| x in s.dispatched && x.id == p.1 && p.0 in x.handlers;
      }
    } else {
      assert DispatchFrame(s, s.frames[c]);
      var x :| x in s.dispatched && x.id == s.frames[c].id && forall h | h in s.frames[c].pending :: h in x.handlers;
      assert x in s'.dispatched;
    }
  }

  lemma CloseNextKeepsNotices(s: State, call: Call, reread: bool)
    requires TableInv(s) && NoticeInv(s) && Enabled(s, CloseNext(call, reread))
    ensures NoticeInv(CloseNextSegment(s, call, reread))
  {
    var Closing(mode, due) := s.frames[call];
    if due == [] || due[0].id !in s.rows || !s.rows[due[0].id].status.Open? {
      assert HandlersDistinct(s);
      NoticesUntouched(s, CloseNextSegment(s, call, reread));
    } else {
      OpenIsUntold(s, due[0].id);
      if reread && mode.Notifies() {
        TellingCloseKeepsNotices(s, call, mode, due[0], due[1..]);
      } else {
        QuietCloseKeepsNotices(s, CloseNextSegment(s, call, reread), Close(due[0].id, mode, reread));
      }
    }
  }

  lemma StepKeepsNotices(s: State, l: Label)
    requires TableInv(s) && NoticeInv(s) && Enabled(s, l)
    ensures NoticeInv(Apply(s, l))
  {
    match l
    case CloseNext(call, reread) =>
      hide TableInv, NoticeInv;
      CloseNextKeepsNotices(s, call, reread);
    case Fire(call) =>
      hide TableInv, NoticeInv;
      if s.frames[call].pending == [] { EndDispatchKeepsNotices(s, call); } else { FireKeepsNotices(s, call); }
    case Subscribe(kind, h) =>
      hide TableInv, NoticeInv;
      SubscribeKeepsNotices(s, kind, h);
    case Unsubscribe(kind, h) =>
      hide TableInv, NoticeInv;
      SubscribeKeepsNotices(s, kind, h);
    case _ =>
      hide TableInv, NoticeInv;
      OtherStepsKeepNotices(s, l);
  }

  lemma OtherStepsKeepNotices(s: State, l: Label)
    requires NoticeInv(s) && Enabled(s, l)
    requires !l.CloseNext? && !l.Fire? && !l.Subscribe? && !l.Unsubscribe?
    ensures NoticeInv(Apply(s, l))
  {
    var s' := Apply(s, l);
    assert HandlersDistinct(s);
    hide NoticeInv, FiringsMatch, DispatchesMatch, NoDuplicates, Lists, Listed, KeyTaken;
    assert forall k | k in s'.handlers :: k in s.handlers && s'.handlers[k] == s.handlers[k];
    assert s'.closes == s.closes && s'.dispatched == s.dispatched && s'.fired == s.fired;
    assert forall c :: c in s'.frames && s'.frames[c].Dispatching? <==> c in s.frames && s.frames[c].Dispatching?;
    NoticesUntouched(s, s');
  }

  // ---- whole runs ----

  // A fresh process over stored rows.
  ghost predicate Initial(s: State) {
    && OneOpenPerKey(s.rows) && AnswersValid(s.rows)
    && s == State(s.rows, map[], map[], false, [], [], [], [])
  }

  lemma InitialInv(s: State)
    requires Initial(s)
    ensures TableInv(s) && NoticeInv(s) && LeavesMatch(s, ClosedIn(s.rows))
  {
  }

  lemma RowsKeptTransitive(a: Rows, b: Rows, c: Rows)
    requires RowsKept(a, b) && RowsKept(b, c)
    ensures RowsKept(a, c)
  {
  }

  /**
   * Over every run: one open row per key, each row leaves `open` at most once and
   * is final after that, its answer is one of its options, and the dispatches and
   * handler calls are those of the resolutions and timeouts, once each.
   */
  lemma {:induction false} EveryRunKeepsTheInbox(s: State, trace: seq<Label>)
    requires TableInv(s) && NoticeInv(s) && IsRun(s, trace)
    ensures TableInv(After(s, trace)) && NoticeInv(After(s, trace))
    ensures RowsKept(s.rows, After(s, trace).rows)
    decreases |trace|
  {
    if trace != [] {
      hide TableInv, NoticeInv, Apply, Enabled, RowsKept;
      StepKeepsTable(s, trace[0]);
      StepKeepsNotices(s, trace[0]);
      var s1 := Apply(s, trace[0]);
      EveryRunKeepsTheInbox(s1, trace[1..]);
      RowsKeptTransitive(s.rows, s1.rows, After(s1, trace[1..]).rows);
    } else {
      hide TableInv, NoticeInv, Enabled;
    }
  }

  /** When no call is in a dispatch, every handler subscribed at a notifying close has fired for it, once. */
  lemma SettledDispatches(s: State, x: Dispatch, h: HandlerId)
    requires NoticeInv(s) && (forall c | c in s.frames :: !s.frames[c].Dispatching?)
    requires x in s.dispatched && h in x.handlers
    ensures multiset(s.fired)[(h, x.id)] == 1
  {
    assert (h, x.id) in s.fired || Pending(s, h, x.id);
    OnceInMultiset(s.fired, (h, x.id));
  }

  lemma {:induction false} OnceInMultiset(fired: seq<(HandlerId, DecisionId)>, p: (HandlerId, DecisionId))
    requires NoDuplicates(fired) && p in fired
    ensures multiset(fired)[p] == 1
  {
    var last := |fired| - 1;
    assert fired == fired[..last] + [fired[last]];
    if p == fired[last] {
      forall i | 0 <= i < last ensures fired[..last][i] != p { assert fired[i] != fired[last]; }
    } else {
      assert p in fired[..last];
      OnceInMultiset(fired[..last], p);
    }
  }

  /** A cancelled row, and one expired at startup, is never dispatched to a handler. */
  lemma QuietClosesStayQuiet(s: State, id: DecisionId, h: HandlerId)
    requires TableInv(s) && NoticeInv(s) && id in s.rows
    requires exists x :: x in s.closes && x.id == id && !(x.mode.Notifies() && x.reread)
    ensures (h, id) !in s.fired
  {
    if (h, id) in s.fired {
      var x :| x in s.dispatched && x.id == (h, id).1 && (h, id).0 in x.handlers;
      var i :| 0 <= i < |s.dispatched| && s.dispatched[i] == x;
      assert Ids(s.dispatched)[i] == id;
      var y :| y in s.closes && y.id == id && !(y.mode.Notifies() && y.reread);
      ToldOnlyOnce(s.closes, y);
    }
  }

  lemma {:induction false} ToldOnlyOnce(closes: seq<Close>, y: Close)
    requires forall i, j | 0 <= i < j < |closes| :: closes[i].id != closes[j].id
    requires y in closes && !(y.mode.Notifies() && y.reread)
    ensures y.id !in Told(closes)
  {
    var last := |closes| - 1;
    ToldIsClosed(closes[..last]);
    if closes[last] == y {
      forall x | x in closes[..last] ensures x.id != y.id {
        var i :| 0 <= i < last && closes[..last][i] == x;
        assert closes[i].id != closes[last].id;
      }
    } else {
      var k :| 0 <= k < |closes| && closes[k] == y;
      assert closes[..last][k] == y;
      ToldOnlyOnce(closes[..last], y);
    }
  }

  // ---- every closed row has its close ----

  function ClosedIn(rows: Rows): set<DecisionId> {
    set id | id in rows && !rows[id].status.Open?
  }

  /** The recorded closes are those of the rows that left `open` since the process began. */
  ghost predicate LeavesMatch(s: State, closedBefore: set<DecisionId>) {
    && closedBefore <= ClosedIn(s.rows)
    && (forall id :: ClosedAt(s.closes, id) <==> id in ClosedIn(s.rows) && id !in closedBefore)
  }

  lemma CloseLeaves(s: State, call: Call, mode: Mode, d: Due, rest: seq<Due>, reread: bool, closedBefore: set<DecisionId>)
    requires LeavesMatch(s, closedBefore) && d.id in s.rows && s.rows[d.id].status.Open?
    ensures LeavesMatch(CloseSegment(s, call, mode, d, rest, reread), closedBefore)
  {
    var s' := CloseSegment(s, call, mode, d, rest, reread);
    var x := Close(d.id, mode, reread);
    assert s'.closes == s.closes + [x] && x in s'.closes;
    assert !mode.Status().Open?;
    forall id ensures ClosedAt(s'.closes, id) <==> ClosedAt(s.closes, id) || id == d.id {
      if y :| y in s.closes && y.id == id { assert y in s'.closes; }
    }
    assert ClosedIn(s'.rows) == ClosedIn(s.rows) + {d.id};
    hide CloseSegment, ClosedAt, ClosedIn;
  }

  lemma SameClosed(s: State, s': State, closedBefore: set<DecisionId>)
    requires LeavesMatch(s, closedBefore) && ClosedIn(s'.rows) == ClosedIn(s.rows) && s'.closes == s.closes
    ensures LeavesMatch(s', closedBefore)
  {
  }

  lemma StepLeaves(s: State, l: Label, closedBefore: set<DecisionId>)
    requires LeavesMatch(s, closedBefore) && Enabled(s, l)
    ensures LeavesMatch(Apply(s, l), closedBefore)
  {
    hide LeavesMatch, CloseSegment, KeyTaken, Lists, Listed;
    if l.CloseNext? {
      var Closing(mode, due) := s.frames[l.call];
      if due != [] && due[0].id in s.rows && s.rows[due[0].id].status.Open? {
        CloseLeaves(s, l.call, mode, due[0], due[1..], l.reread, closedBefore);
      } else {
        SameClosed(s, Apply(s, l), closedBefore);
      }
    } else {
      assert ClosedIn(Apply(s, l).rows) == ClosedIn(s.rows);
      SameClosed(s, Apply(s, l), closedBefore);
    }
  }

  lemma {:induction false} EveryRunRecordsItsCloses(s: State, trace: seq<Label>, closedBefore: set<DecisionId>)
    requires LeavesMatch(s, closedBefore) && IsRun(s, trace)
    ensures LeavesMatch(After(s, trace), closedBefore)
    decreases |trace|
  {
    if trace != [] {
      hide LeavesMatch, Apply, Enabled;
      StepLeaves(s, trace[0], closedBefore);
      EveryRunRecordsItsCloses(Apply(s, trace[0]), trace[1..], closedBefore);
    }
  }

  lemma {:induction false} NotifiedIsTold(closes: seq<Close>, x: Close)
    requires x in closes && x.mode.Notifies() && x.reread
    ensures x.id in Told(closes)
  {
    var last := |closes| - 1;
    if closes[last] != x {
      var k :| 0 <= k < |closes| && closes[k] == x;
      assert closes[..last][k] == x;
      NotifiedIsTold(closes[..last], x);
    }
  }

  // The close was announced to the handlers: each of its snapshot fired once.
  ghost predicate ToldOnce(s: State, id: DecisionId) {
    exists x :: x in s.dispatched && x.id == id && forall h | h in x.handlers :: multiset(s.fired)[(h, id)] == 1
  }

  /**
   * End to end, when no call is in a dispatch: a row that left `open` in this
   * process has one close, by which it has its status and answer; if that was a
   * resolution or a timeout whose row could be read back, every handler subscribed
   * then has fired for it exactly once, and otherwise none has.
   */
  lemma EveryCloseIsToldOnce(s: State, closedBefore: set<DecisionId>, id: DecisionId) returns (x: Close)
    requires TableInv(s) && NoticeInv(s) && LeavesMatch(s, closedBefore)
    requires forall c | c in s.frames :: !s.frames[c].Dispatching?
    requires id in s.rows && !s.rows[id].status.Open? && id !in closedBefore
    ensures x in s.closes && x.id == id && ClosedBy(s.rows[id], x.mode)
    ensures forall y | y in s.closes && y.id == id :: y == x
    ensures x.mode.Notifies() && x.reread ==> ToldOnce(s, id)
    ensures !(x.mode.Notifies() && x.reread) ==> forall h: HandlerId :: (h, id) !in s.fired
  {
    assert id in ClosedIn(s.rows) && ClosedAt(s.closes, id);
    x :| x in s.closes && x.id == id;
    hide LeavesMatch;
    if x.mode.Notifies() && x.reread {
      NotifiedIsTold(s.closes, x);
      var i :| 0 <= i < |Ids(s.dispatched)| && Ids(s.dispatched)[i] == id;
      var d := s.dispatched[i];
      forall h | h in d.handlers ensures multiset(s.fired)[(h, id)] == 1 { SettledDispatches(s, d, h); }
      assert d in s.dispatched && d.id == id;
    } else {
      forall h: HandlerId ensures (h, id) !in s.fired { QuietClosesStayQuiet(s, id, h); }
    }
  }
}
