/**
 * The decision inbox (decision-service.ts, decision-repository.ts) as a
 * transition system: every repository call and every handler call is a step of
 * its own, so any number of service calls may interleave or re-enter.
 */
module Decisions {
  import opened Common

  type DecisionId = string
  type OptionId = string
  type HandlerId = nat
  type Call = nat

  datatype Kind = ShellConfirmation | AgentBlocker | StalledRun | MergeBlocked | RateLimit | HandoffDegraded {
    // DECISION_TIMEOUT_DEFAULT_OPTIONS
    function TimeoutDefault(): OptionId {
      match this
      case ShellConfirmation => "reject"
      case AgentBlocker => "acknowledge"
      case StalledRun => "keep_waiting"
      case MergeBlocked => "cancel"
      case RateLimit => "wait"
      case HandoffDegraded => "dismiss"
    }
  }

  datatype Status = Open | Resolved | Expired | Cancelled

  datatype DecidedBy = User | Timeout | System

  datatype Resolution = Resolution(option: OptionId, decidedBy: DecidedBy)

  datatype Input = Input(
    kind: Kind,
    detailKind: Kind,
    dedupeKey: string,
    options: seq<OptionId>,
    runId: Option<string>,
    workflowRunId: Option<string>,
    timeoutMs: int)

  // A row of pending_decisions.
  datatype Decision = Decision(input: Input, expiresAt: Option<int>, status: Status, resolution: Option<Resolution>)

  type Rows = map<DecisionId, Decision>

  // Which service call closes a row.
  datatype Mode = ByResolve(option: OptionId, decidedBy: DecidedBy) | ByTimeout(now: int) | BySource(runId: Option<string>, workflowRunId: Option<string>) | ByStartup {
    // emitResolved(decision, true): the onResolved handlers are told.
    predicate Notifies() { ByResolve? || ByTimeout? }

    function Status(): Status {
      match this
      case ByResolve(_, _) => Resolved
      case ByTimeout(_) => Expired
      case BySource(_, _) => Cancelled
      case ByStartup => Expired
    }
  }

  // A row as it was listed.
  datatype Due = Due(id: DecisionId, input: Input)

  // A service call between two repository or handler calls.
  datatype Frame =
    | Inserting(input: Input, expiresAt: Option<int>)
    | Closing(mode: Mode, due: seq<Due>)
    | Dispatching(id: DecisionId, pending: seq<HandlerId>, mode: Mode, due: seq<Due>)

  // History: a successful compare-and-set, and whether its row could be read back.
  datatype Close = Close(id: DecisionId, mode: Mode, reread: bool)

  // History: one dispatch, with the handlers subscribed at that moment.
  datatype Dispatch = Dispatch(id: DecisionId, handlers: seq<HandlerId>)

  datatype State = State(
    rows: Rows,
    frames: map<Call, Frame>,
    handlers: map<Kind, seq<HandlerId>>,
    disposed: bool,
    announced: seq<DecisionId>,
    closes: seq<Close>,
    dispatched: seq<Dispatch>,
    fired: seq<(HandlerId, DecisionId)>)

  datatype Label =
    | OpenCall(call: Call, input: Input, now: int)
    | Insert(call: Call, id: DecisionId)
    | Resolve(call: Call, id: DecisionId, option: OptionId, decidedBy: DecidedBy)
    | Expire(call: Call, now: int, order: seq<DecisionId>)
    | CancelBySource(call: Call, runId: Option<string>, workflowRunId: Option<string>, order: seq<DecisionId>)
    | Reconcile(call: Call, order: seq<DecisionId>)
    | CloseNext(call: Call, reread: bool)
    | Fire(call: Call)
    | Abort(call: Call)
    | Subscribe(kind: Kind, handler: HandlerId)
    | Unsubscribe(kind: Kind, handler: HandlerId)
    | Dispose

  // The unique index: an open row with the key.
  predicate KeyTaken(rows: Rows, key: string) {
    exists id :: id in rows && rows[id].status.Open? && rows[id].input.dedupeKey == key
  }

  function TimeoutDefaultOption(input: Input): OptionId {
    if input.kind.TimeoutDefault() in input.options || input.options == [] then input.kind.TimeoutDefault()
    else input.options[0]
  }

  // The resolution a close writes; a cancellation writes none.
  function Answer(mode: Mode, input: Input): Option<Resolution> {
    match mode
    case ByResolve(option, decidedBy) => Some(Resolution(option, decidedBy))
    case ByTimeout(_) => Some(Resolution(TimeoutDefaultOption(input), Timeout))
    case BySource(_, _) => None
    case ByStartup => Some(Resolution(TimeoutDefaultOption(input), System))
  }

  function HandlersOf(s: State, kind: Kind): seq<HandlerId> {
    if kind in s.handlers then s.handlers[kind] else []
  }

  // open up to its insert (166-202).
  function OpenSegment(s: State, call: Call, input: Input, now: int): State {
    if s.disposed || input.detailKind != input.kind || input.options == [] || KeyTaken(s.rows, input.dedupeKey) then s
    else s.(frames := s.frames[call := Inserting(input, if input.timeoutMs > 0 then Some(now + input.timeoutMs) else None)])
  }

  // insert; a unique violation makes open read the winner (220-267, 220-238).
  function InsertSegment(s: State, call: Call, id: DecisionId): State
    requires call in s.frames && s.frames[call].Inserting?
  {
    var f := s.frames[call];
    if id in s.rows || KeyTaken(s.rows, f.input.dedupeKey) then s.(frames := s.frames - {call})
    else
      s.(rows := s.rows[id := Decision(f.input, f.expiresAt, Open, None)],
         announced := s.announced + [id],
         frames := s.frames - {call})
  }

  // resolve up to its compare-and-set (251-289).
  function ResolveSegment(s: State, call: Call, id: DecisionId, option: OptionId, decidedBy: DecidedBy): State {
    if id !in s.rows || !s.rows[id].status.Open? || option !in s.rows[id].input.options then s
    else s.(frames := s.frames[call := Closing(ByResolve(option, decidedBy), [Due(id, s.rows[id].input)])])
  }

  function Listed(rows: Rows, order: seq<DecisionId>): seq<Due>
    requires forall id | id in order :: id in rows
  {
    seq(|order|, i requires 0 <= i < |order| => Due(order[i], rows[order[i]].input))
  }

  predicate IsDue(d: Decision, now: int) { d.expiresAt.Some? && d.expiresAt.value <= now }

  predicate FromSource(d: Decision, runId: Option<string>, workflowRunId: Option<string>) {
    (runId.Some? && d.input.runId == runId) || (workflowRunId.Some? && d.input.workflowRunId == workflowRunId)
  }

  // A close that went through (358-375, 303, 326, 354, 389).
  function CloseSegment(s: State, call: Call, mode: Mode, d: Due, rest: seq<Due>, reread: bool): State
    requires d.id in s.rows
  {
    var notified := reread && mode.Notifies();
    var hs := HandlersOf(s, d.input.kind);
    s.(rows := s.rows[d.id := s.rows[d.id].(status := mode.Status(), resolution := Answer(mode, d.input))],
       closes := s.closes + [Close(d.id, mode, reread)],
       dispatched := if notified then s.dispatched + [Dispatch(d.id, hs)] else s.dispatched,
       frames := if !reread then s.frames - {call}
                 else s.frames[call := if mode.Notifies() then Dispatching(d.id, hs, mode, rest) else Closing(mode, rest)])
  }

  // The next row of a closing loop: closed, or already closed by someone else.
  function CloseNextSegment(s: State, call: Call, reread: bool): State
    requires call in s.frames && s.frames[call].Closing?
  {
    var Closing(mode, due) := s.frames[call];
    if due == [] then s.(frames := s.frames - {call})
    else if due[0].id !in s.rows || !s.rows[due[0].id].status.Open? then
      s.(frames := s.frames[call := Closing(mode, due[1..])])
    else CloseSegment(s, call, mode, due[0], due[1..], reread)
  }

  // The loop of dispatch over its snapshot of the handlers.
  function FireSegment(s: State, call: Call): State
    requires call in s.frames && s.frames[call].Dispatching?
  {
    var Dispatching(id, pending, mode, due) := s.frames[call];
    if pending == [] then s.(frames := s.frames[call := Closing(mode, due)])
    else
      s.(fired := s.fired + [(pending[0], id)],
         frames := s.frames[call := Dispatching(id, pending[1..], mode, due)])
  }

  function SubscribeSegment(s: State, kind: Kind, h: HandlerId): State {
    if h in HandlersOf(s, kind) then s
    else s.(handlers := s.handlers[kind := HandlersOf(s, kind) + [h]])
  }

  function Without(hs: seq<HandlerId>, h: HandlerId): seq<HandlerId> {
    if hs == [] then [] else if hs[0] == h then Without(hs[1..], h) else [hs[0]] + Without(hs[1..], h)
  }

  function UnsubscribeSegment(s: State, kind: Kind, h: HandlerId): State {
    s.(handlers := s.handlers[kind := Without(HandlersOf(s, kind), h)])
  }

  // A query's answer: the open rows that satisfy it, each once.
  ghost predicate Lists(rows: Rows, order: seq<DecisionId>, wanted: Decision -> bool) {
    && NoDuplicates(order)
    && (forall id :: id in order <==> id in rows && rows[id].status.Open? && wanted(rows[id]))
  }

  predicate OfShell(d: Decision) { d.input.kind.ShellConfirmation? }

  ghost predicate Enabled(s: State, l: Label) {
    match l
    case OpenCall(call, _, _) => call !in s.frames
    case Insert(call, _) => call in s.frames && s.frames[call].Inserting?
    case Resolve(call, _, _, _) => call !in s.frames
    case Expire(call, now, order) => call !in s.frames && Lists(s.rows, order, d => IsDue(d, now))
    case CancelBySource(call, r, w, order) => call !in s.frames && Lists(s.rows, order, d => FromSource(d, r, w))
    case Reconcile(call, order) => call !in s.frames && Lists(s.rows, order, OfShell)
    case CloseNext(call, _) => call in s.frames && s.frames[call].Closing?
    case Fire(call) => call in s.frames && s.frames[call].Dispatching?
    case Abort(call) => call in s.frames && !s.frames[call].Dispatching?
    case Subscribe(_, _) => true
    case Unsubscribe(_, _) => true
    case Dispose => true
  }

  ghost function Apply(s: State, l: Label): State
    requires Enabled(s, l)
  {
    match l
    case OpenCall(call, input, now) => OpenSegment(s, call, input, now)
    case Insert(call, id) => InsertSegment(s, call, id)
    case Resolve(call, id, option, decidedBy) => ResolveSegment(s, call, id, option, decidedBy)
    case Expire(call, now, order) => s.(frames := s.frames[call := Closing(ByTimeout(now), Listed(s.rows, order))])
    case CancelBySource(call, r, w, order) => s.(frames := s.frames[call := Closing(BySource(r, w), Listed(s.rows, order))])
    case Reconcile(call, order) => s.(frames := s.frames[call := Closing(ByStartup, Listed(s.rows, order))])
    case CloseNext(call, reread) => CloseNextSegment(s, call, reread)
    case Fire(call) => FireSegment(s, call)
    case Abort(call) => s.(frames := s.frames - {call})
    case Subscribe(kind, h) => SubscribeSegment(s, kind, h)
    case Unsubscribe(kind, h) => UnsubscribeSegment(s, kind, h)
    case Dispose => s.(disposed := true, handlers := map[])
  }

  ghost predicate IsRun(s: State, trace: seq<Label>)
    decreases |trace|
  {
    trace == [] || (Enabled(s, trace[0]) && IsRun(Apply(s, trace[0]), trace[1..]))
  }

  ghost function After(s: State, trace: seq<Label>): State
    requires IsRun(s, trace)
    decreases |trace|
  {
    if trace == [] then s else After(Apply(s, trace[0]), trace[1..])
  }
}
