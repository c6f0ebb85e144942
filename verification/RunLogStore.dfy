/**
 * The run log store (run-log-store.ts): sequence numbers and incremental
 * validation of events.jsonl on top of the append-only log files.  Serializing
 * an event and reading the `seq` of a line are parameters.
 */
module RunLogStore {
  import opened Common
  import opened TextLines
  import opened LogFile

  type RunId = string
  type Event = string

  // JSON: an event with its number as one line, and the number of a line.
  datatype Codec = Codec(encode: (nat, Event) -> Bytes, seqOf: Bytes -> Option<int>) {
    ghost predicate Sound() {
      forall n: nat, e :: NEWLINE_BYTE !in encode(n, e) && seqOf(encode(n, e)) == Some(n)
    }

    function Line(n: nat, e: Event): Bytes { encode(n, e) + [NEWLINE_BYTE] }
  }

  datatype LogState = LogState(bytes: nat, lines: nat)

  // What the store holds for one run.
  datatype RunLogs = RunLogs(events: Log, terminal: Log, next: Option<nat>, known: Option<LogState>)

  // ---- the numbered file ----

  // The terminated lines of a content.
  function LinesOf(content: Bytes): seq<Bytes> { AllButLast(Split(content, NEWLINE_BYTE)) }

  ghost predicate NumberedFrom(codec: Codec, lines: seq<Bytes>, base: nat) {
    forall i | 0 <= i < |lines| :: codec.seqOf(lines[i]) == Some(base + i + 1)
  }

  /** Line i carries seq i, and the last line is terminated. */
  ghost predicate Numbered(codec: Codec, content: Bytes) {
    LastOf(Split(content, NEWLINE_BYTE)) == [] && NumberedFrom(codec, LinesOf(content), 0)
  }

  // The loop over the new lines.
  function NumbersFit(codec: Codec, lines: seq<Bytes>, base: nat): bool
    ensures NumbersFit(codec, lines, base) <==> NumberedFrom(codec, lines, base)
  {
    if lines == [] then true
    else
      var last := |lines| - 1;
      NumbersFit(codec, lines[..last], base) && codec.seqOf(lines[last]) == Some(base + last + 1)
  }

  // countAndValidateEvents from an offset on; None is the thrown error.
  function ValidateFrom(codec: Codec, content: Bytes, offset: nat, base: nat): Option<nat>
    requires offset <= |content|
  {
    if |content| == offset then Some(base)
    else
      var tail := content[offset..];
      if tail[|tail| - 1] != NEWLINE_BYTE then None
      else
        var lines := Split(tail[..|tail| - 1], NEWLINE_BYTE);
        if NumbersFit(codec, lines, base) then Some(base + |lines|) else None
  }

  function CountAndValidate(codec: Codec, r: RunLogs): (RunLogs, Option<nat>) {
    var content := r.events.file.content;
    var size := |content|;
    var incremental := r.known.Some? && size >= r.known.value.bytes;
    var offset := if incremental then r.known.value.bytes else 0;
    var base := if incremental then r.known.value.lines else 0;
    var found := ValidateFrom(codec, content, offset, base);
    var handle := if r.events.handle.Some? then Some(r.events.handle.value.(size := size)) else None;
    (r.(events := r.events.(handle := handle), known := if found.Some? then Some(LogState(size, found.value)) else r.known),
     found)
  }

  lemma TerminatedLines(tail: Bytes)
    requires tail != []
    ensures LastOf(Split(tail, NEWLINE_BYTE)) == [] <==> tail[|tail| - 1] == NEWLINE_BYTE
    ensures tail[|tail| - 1] == NEWLINE_BYTE ==> LinesOf(tail) == Split(tail[..|tail| - 1], NEWLINE_BYTE)
  {
    var last := tail[|tail| - 1];
    var front := tail[..|tail| - 1];
    assert tail == front + [last];
    if last == NEWLINE_BYTE {
      SplitAppend(front, [], NEWLINE_BYTE);
      assert front + [NEWLINE_BYTE] + [] == tail;
      assert Split<Byte>([], NEWLINE_BYTE) == [[]];
    } else {
      LastLineHasLast(tail);
    }
  }

  lemma {:induction false} LastLineHasLast(s: Bytes)
    requires s != [] && s[|s| - 1] != NEWLINE_BYTE
    ensures LastOf(Split(s, NEWLINE_BYTE)) != []
  {
    if |s| > 1 {
      LastLineHasLast(s[1..]);
      var rest := Split(s[1..], NEWLINE_BYTE);
      if s[0] != NEWLINE_BYTE && |rest| > 1 {
        assert LastOf([[s[0]] + rest[0]] + rest[1..]) == LastOf(rest);
      }
    }
  }

  // Validating from the start decides numbering and counts the lines.
  lemma ValidateMeans(codec: Codec, content: Bytes)
    ensures ValidateFrom(codec, content, 0, 0).Some? <==> Numbered(codec, content)
    ensures Numbered(codec, content) ==> ValidateFrom(codec, content, 0, 0) == Some(|LinesOf(content)|)
  {
    if content == [] {
      assert Split<Byte>([], NEWLINE_BYTE) == [[]];
    } else {
      assert content[0..] == content;
      TerminatedLines(content);
    }
  }

  lemma NumberedParts(codec: Codec, a: seq<Bytes>, b: seq<Bytes>)
    ensures NumberedFrom(codec, a + b, 0) <==> NumberedFrom(codec, a, 0) && NumberedFrom(codec, b, |a|)
  {
    if NumberedFrom(codec, a + b, 0) {
      forall i | 0 <= i < |a| ensures codec.seqOf(a[i]) == Some(i + 1) { assert (a + b)[i] == a[i]; }
      forall i | 0 <= i < |b| ensures codec.seqOf(b[i]) == Some(|a| + i + 1) { assert (a + b)[|a| + i] == b[i]; }
    }
  }

  // After terminated lines, more text adds its own lines.
  lemma AfterTerminated(a: Bytes, tail: Bytes)
    requires LastOf(Split(a, NEWLINE_BYTE)) == []
    ensures LinesOf(a + tail) == LinesOf(a) + LinesOf(tail)
    ensures LastOf(Split(a + tail, NEWLINE_BYTE)) == LastOf(Split(tail, NEWLINE_BYTE))
  {
    SplitConcat(a, tail, NEWLINE_BYTE);
    assert [] + tail == tail;
    hide Split;
    var first, rest := LinesOf(a), Split(tail, NEWLINE_BYTE);
    assert AllButLast(first + rest) == first + AllButLast(rest);
  }

  // What validating a non-empty tail decides.
  lemma TailMeans(codec: Codec, content: Bytes, offset: nat, base: nat)
    requires offset < |content|
    ensures var tail := content[offset..]; var fits := LastOf(Split(tail, NEWLINE_BYTE)) == [] && NumberedFrom(codec, LinesOf(tail), base);
      ValidateFrom(codec, content, offset, base) == if fits then Some(base + |LinesOf(tail)|) else None
  {
    TerminatedLines(content[offset..]);
    hide Split;
  }

  /**
   * Incremental validation: after a prefix that is numbered, looking at the rest
   * alone gives the answer of validating the whole file.
   */
  lemma IncrementalIsWhole(codec: Codec, content: Bytes, offset: nat)
    requires offset <= |content| && Numbered(codec, content[..offset])
    ensures ValidateFrom(codec, content, offset, |LinesOf(content[..offset])|) == ValidateFrom(codec, content, 0, 0)
  {
    var a, tail := content[..offset], content[offset..];
    assert content == a + tail;
    ValidateMeans(codec, content);
    if tail == [] {
      assert content == a;
    } else {
      TailMeans(codec, content, offset, |LinesOf(a)|);
      AfterTerminated(a, tail);
      NumberedParts(codec, LinesOf(a), LinesOf(tail));
      hide ValidateFrom, LinesOf, Split, NumberedFrom;
    }
  }

  lemma AppendedIsNumbered(codec: Codec, content: Bytes, e: Event)
    requires codec.Sound() && Numbered(codec, content)
    ensures var content' := content + codec.Line(|LinesOf(content)| + 1, e);
      Numbered(codec, content') && |LinesOf(content')| == |LinesOf(content)| + 1
      && LinesOf(content') == LinesOf(content) + [codec.encode(|LinesOf(content)| + 1, e)]
  {
    var line := codec.encode(|LinesOf(content)| + 1, e);
    SplitConcat(content, line + [NEWLINE_BYTE], NEWLINE_BYTE);
    assert [] + (line + [NEWLINE_BYTE]) == line + [NEWLINE_BYTE] + [];
    SplitLine(line, [], NEWLINE_BYTE);
    assert Split<Byte>([], NEWLINE_BYTE) == [[]];
    hide Split;
    assert AllButLast(LinesOf(content) + [line, []]) == LinesOf(content) + [line];
    NumberedParts(codec, LinesOf(content), [line]);
  }

  // ---- the operations on one run ----

  datatype Answer = Appended(number: nat) | Failed

  // appendEvent.
  function AppendEvent(codec: Codec, interval: int, r: RunLogs, e: Event, o: Outcome): (RunLogs, Answer) {
    var (r1, counted) := if r.next.Some? then (r, None) else CountAndValidate(codec, r);
    if r.next.None? && counted.None? then (r1, Failed)
    else
      var n := if r.next.Some? then r.next.value else counted.value + 1;
      var (log, ok) := Append(r1.events, interval, codec.Line(n, e), o);
      if !ok then (r1.(events := log), Failed)
      else (r1.(events := log, next := Some(n + 1), known := Some(LogState(log.handle.value.size, n))), Appended(n))
  }

  function AppendTerminal(interval: int, r: RunLogs, bytes: Bytes, o: Outcome): (RunLogs, bool) {
    var (log, ok) := Append(r.terminal, interval, bytes, o);
    (r.(terminal := log), ok)
  }

  // initialize: the files are touched, the events counted.
  function Initialize(codec: Codec, r: RunLogs): (RunLogs, bool) {
    var (r1, counted) := CountAndValidate(codec, r);
    if counted.None? then (r1, false) else (r1.(next := Some(counted.value + 1)), true)
  }

  // What the two fsyncs of a flush answer, and the clock.
  datatype Fsyncs = Fsyncs(events: bool, terminal: bool, at: int)

  // syncRun: events first; a failing fsync ends the loop.
  function SyncRun(r: RunLogs, close: bool, f: Fsyncs): (RunLogs, bool) {
    var (events, ok) := SyncPath(r.events, close, f.events, f.at);
    if !ok then (r.(events := events), false)
    else
      var (terminal, ok2) := SyncPath(r.terminal, close, f.terminal, f.at);
      (r.(events := events, terminal := terminal), ok2)
  }

  function Dispose(r: RunLogs, f: Fsyncs): (RunLogs, bool) {
    SyncRun(r.(next := None, known := None), true, f)
  }

  // ---- what every operation keeps ----

  /** The cached counters agree with the file, and both files follow the durability policy. */
  ghost predicate Consistent(codec: Codec, interval: int, r: RunLogs) {
    && Durable(r.events, interval) && Durable(r.terminal, interval)
    && (r.known.Some? ==>
          && r.known.value.bytes == |r.events.file.content|
          && Numbered(codec, r.events.file.content)
          && r.known.value.lines == |LinesOf(r.events.file.content)|)
    && (r.next.Some? ==>
          Numbered(codec, r.events.file.content) && r.next.value == |LinesOf(r.events.file.content)| + 1)
  }

  lemma CountingKeeps(codec: Codec, interval: int, r: RunLogs)
    requires Consistent(codec, interval, r)
    ensures var (r', counted) := CountAndValidate(codec, r);
      && Consistent(codec, interval, r')
      && r' == r.(known := r'.known)
      && (counted.Some? <==> Numbered(codec, r.events.file.content))
      && (counted.Some? ==> counted == Some(|LinesOf(r.events.file.content)|) && r'.known.Some?)
  {
    var content := r.events.file.content;
    ValidateMeans(codec, content);
    assert content[..|content|] == content;
    if r.known.Some? { IncrementalIsWhole(codec, content, |content|); }
    hide Numbered, LinesOf, ValidateFrom;
  }

  // Writing the next line goes through or is undone.
  ghost predicate EventGoesWell(codec: Codec, interval: int, r: RunLogs, e: Event, o: Outcome) {
    Numbered(codec, r.events.file.content) ==>
      GoesWell(r.events, interval, codec.Line(|LinesOf(r.events.file.content)| + 1, e), o)
  }

  /**
   * appendEvent, undone when it fails: it adds the next number as one
   * line, or leaves the file and the counter alone.
   */
  lemma AppendEventKeeps(codec: Codec, interval: int, r: RunLogs, e: Event, o: Outcome)
    requires codec.Sound() && Consistent(codec, interval, r) && EventGoesWell(codec, interval, r, e, o)
    ensures var (r', answer) := AppendEvent(codec, interval, r, e, o);
      && Consistent(codec, interval, r') && r'.terminal == r.terminal
      && (answer.Failed? ==> r'.events.file.content == r.events.file.content && r'.next == r.next)
      && (answer.Appended? ==>
            && Numbered(codec, r.events.file.content)
            && answer.number == |LinesOf(r.events.file.content)| + 1
            && LinesOf(r'.events.file.content) == LinesOf(r.events.file.content) + [codec.encode(answer.number, e)])
      && (!Numbered(codec, r.events.file.content) ==> answer.Failed?)
  {
    CountingKeeps(codec, interval, r);
    hide Numbered, LinesOf, Durable, Append, CountAndValidate, Consistent;
    if r.next.Some? {
      NextIsKnown(codec, interval, r);
      WriteKeeps(codec, interval, r, e, o);
    } else {
      var r1, counted := CountAndValidate(codec, r).0, CountAndValidate(codec, r).1;
      if counted.Some? {
        WriteKeeps(codec, interval, r1, e, o);
      }
    }
  }

  lemma NextIsKnown(codec: Codec, interval: int, r: RunLogs)
    requires Consistent(codec, interval, r) && r.next.Some?
    ensures Numbered(codec, r.events.file.content) && r.next.value == |LinesOf(r.events.file.content)| + 1
  {
  }

  // Writing the next number, once it is known.
  lemma WriteKeeps(codec: Codec, interval: int, r: RunLogs, e: Event, o: Outcome)
    requires codec.Sound() && Consistent(codec, interval, r) && EventGoesWell(codec, interval, r, e, o)
    requires Numbered(codec, r.events.file.content)
    ensures var n := |LinesOf(r.events.file.content)| + 1;
      var (log, ok) := Append(r.events, interval, codec.Line(n, e), o);
      if ok then
        && log.handle.Some?
        && Consistent(codec, interval, r.(events := log, next := Some(n + 1), known := Some(LogState(log.handle.value.size, n))))
        && LinesOf(log.file.content) == LinesOf(r.events.file.content) + [codec.encode(n, e)]
      else
        Consistent(codec, interval, r.(events := log)) && log.file.content == r.events.file.content
  {
    var n := |LinesOf(r.events.file.content)| + 1;
    AppendedIsNumbered(codec, r.events.file.content, e);
    AppendIsAtomic(r.events, interval, codec.Line(n, e), o);
    hide Numbered, LinesOf, Durable, Append;
  }

  lemma AppendTerminalKeeps(codec: Codec, interval: int, r: RunLogs, bytes: Bytes, o: Outcome)
    requires Consistent(codec, interval, r) && GoesWell(r.terminal, interval, bytes, o)
    ensures var (r', ok) := AppendTerminal(interval, r, bytes, o);
      && Consistent(codec, interval, r') && r'.events == r.events && r'.next == r.next
      && r'.terminal.file.content == (if ok then r.terminal.file.content + bytes else r.terminal.file.content)
  {
    hide Numbered, LinesOf, Durable, Append;
    AppendIsAtomic(r.terminal, interval, bytes, o);
  }

  lemma InitializeKeeps(codec: Codec, interval: int, r: RunLogs)
    requires Consistent(codec, interval, r)
    ensures var (r', ok) := Initialize(codec, r);
      && Consistent(codec, interval, r')
      && r'.events.file == r.events.file && r'.terminal == r.terminal
      && (ok <==> Numbered(codec, r.events.file.content))
  {
    CountingKeeps(codec, interval, r);
    hide Numbered, LinesOf, Durable, CountAndValidate;
  }

  /** After a flush or a disposal that succeeds nothing of the run is unsynced. */
  lemma SyncRunKeeps(codec: Codec, interval: int, r: RunLogs, close: bool, f: Fsyncs)
    requires Consistent(codec, interval, r)
    ensures var (r', ok) := SyncRun(r, close, f);
      && Consistent(codec, interval, r')
      && r'.events.file.content == r.events.file.content && r'.terminal.file.content == r.terminal.file.content
      && (ok ==> r'.events.file.durable == r'.events.file.content && r'.terminal.file.durable == r'.terminal.file.content)
      && (ok && close ==> r'.events.handle.None? && r'.terminal.handle.None?)
  {
    SyncMakesDurable(r.events, interval, close, f.events, f.at);
    SyncMakesDurable(r.terminal, interval, close, f.terminal, f.at);
    hide Numbered, LinesOf, Durable, SyncPath;
  }

  // ---- whole lives ----

  datatype Op =
    | Initialized
    | AppendedEvent(event: Event, outcome: Outcome)
    | AppendedTerminal(bytes: Bytes, outcome: Outcome)
    | Flushed(fsyncs: Fsyncs)
    | Disposed(fsyncs: Fsyncs)

  function Apply(codec: Codec, interval: int, r: RunLogs, op: Op): RunLogs {
    match op
    case Initialized => Initialize(codec, r).0
    case AppendedEvent(e, o) => AppendEvent(codec, interval, r, e, o).0
    case AppendedTerminal(bytes, o) => AppendTerminal(interval, r, bytes, o).0
    case Flushed(f) => SyncRun(r, false, f).0
    case Disposed(f) => Dispose(r, f).0
  }

  // Every append of the sequence goes through or is undone.
  ghost predicate AllGoWell(codec: Codec, interval: int, r: RunLogs, ops: seq<Op>)
    decreases |ops|
  {
    ops == [] || (OpGoesWell(codec, interval, r, ops[0]) && AllGoWell(codec, interval, Apply(codec, interval, r, ops[0]), ops[1..]))
  }

  ghost predicate OpGoesWell(codec: Codec, interval: int, r: RunLogs, op: Op) {
    match op
    case AppendedEvent(e, o) => EventGoesWell(codec, interval, r, e, o)
    case AppendedTerminal(bytes, o) => GoesWell(r.terminal, interval, bytes, o)
    case _ => true
  }

  function After(codec: Codec, interval: int, r: RunLogs, ops: seq<Op>): RunLogs
    decreases |ops|
  {
    if ops == [] then r else After(codec, interval, Apply(codec, interval, r, ops[0]), ops[1..])
  }

  // The files an earlier process left: complete on disk, nothing cached.
  predicate Fresh(r: RunLogs) {
    && r.next.None? && r.known.None?
    && r.events.handle.None? && r.events.file.durable == r.events.file.content
    && r.terminal.handle.None? && r.terminal.file.durable == r.terminal.file.content
  }

  // A numbered file stays numbered and only grows; another is never written to.
  ghost predicate NumberingKept(codec: Codec, before: Bytes, after: Bytes) {
    if Numbered(codec, before) then Numbered(codec, after) && LinesOf(before) <= LinesOf(after) else after == before
  }

  lemma OpKeeps(codec: Codec, interval: int, r: RunLogs, op: Op)
    requires codec.Sound() && Consistent(codec, interval, r) && OpGoesWell(codec, interval, r, op)
    ensures Consistent(codec, interval, Apply(codec, interval, r, op))
    ensures NumberingKept(codec, r.events.file.content, Apply(codec, interval, r, op).events.file.content)
  {
    match op
    case Initialized =>
      InitializeKeeps(codec, interval, r);
      hide Numbered, LinesOf, Initialize;
    case AppendedEvent(e, o) =>
      AppendEventKeeps(codec, interval, r, e, o);
      hide LinesOf, AppendEvent, Durable;
    case AppendedTerminal(bytes, o) =>
      AppendTerminalKeeps(codec, interval, r, bytes, o);
      hide Numbered, LinesOf, AppendTerminal;
    case Flushed(f) =>
      SyncRunKeeps(codec, interval, r, false, f);
      hide Numbered, LinesOf, SyncRun;
    case Disposed(f) =>
      hide Numbered, LinesOf, SyncRun, Durable;
      SyncRunKeeps(codec, interval, r.(next := None, known := None), true, f);
  }

  /**
   * Over any sequence of operations whose failed appends are undone: line i of events.jsonl carries seq i if it
   * did at the start, lines are only added, and the durability policy holds.
   */
  lemma {:induction false} EveryLifeKeepsNumbers(codec: Codec, interval: int, r: RunLogs, ops: seq<Op>)
    requires codec.Sound() && Consistent(codec, interval, r) && AllGoWell(codec, interval, r, ops)
    ensures Consistent(codec, interval, After(codec, interval, r, ops))
    ensures NumberingKept(codec, r.events.file.content, After(codec, interval, r, ops).events.file.content)
    decreases |ops|
  {
    if ops != [] {
      hide Consistent, Apply, Numbered, LinesOf, OpGoesWell;
      OpKeeps(codec, interval, r, ops[0]);
      EveryLifeKeepsNumbers(codec, interval, Apply(codec, interval, r, ops[0]), ops[1..]);
    }
  }

  /**
   * From the files an earlier process left on: whenever the process is killed,
   * each file loses at most the writes made within the interval after the last
   * fsync of a dirty handle, and what is left is the beginning of it.
   */
  lemma CrashesLoseLittle(codec: Codec, interval: int, r: RunLogs, ops: seq<Op>)
    requires codec.Sound() && Fresh(r) && AllGoWell(codec, interval, r, ops)
    ensures var r' := After(codec, interval, r, ops);
      LosesLittle(r'.events, interval) && LosesLittle(r'.terminal, interval)
  {
    assert Consistent(codec, interval, r);
    EveryLifeKeepsNumbers(codec, interval, r, ops);
    var r' := After(codec, interval, r, ops);
    assert Durable(r'.events, interval) && Durable(r'.terminal, interval);
    hide Consistent, Durable, After, AllGoWell;
    CrashLosesOnlyRecentWrites(r'.events, interval);
    CrashLosesOnlyRecentWrites(r'.terminal, interval);
  }
}
