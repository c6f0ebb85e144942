/**
 * The progress follower (progress-follower.ts): an append-only file is read in
 * whatever portions the ticks find, and its lines are handed on.
 */
module ProgressFollower {
  import opened Common
  import opened TextLines

  type RunId = string

  const RETURN: Byte := 0x0d
  const MAX_LINE_BYTES: nat := 8 * 1024
  const MAX_FILE_BYTES: nat := 4 * 1024 * 1024

  datatype FollowState = FollowState(offset: nat, pending: Bytes, badLines: nat)

  // ---- lines of a text ----

  // Tolerate CRLF writers.
  function TrimReturn(line: Bytes): Bytes {
    if line != [] && line[|line| - 1] == RETURN then line[..|line| - 1] else line
  }

  function TrimReturns(lines: seq<Bytes>): seq<Bytes> {
    seq(|lines|, i requires 0 <= i < |lines| => TrimReturn(lines[i]))
  }

  /** The terminated lines of a text, and the open line after them. */
  function Complete(text: Bytes): seq<Bytes> { TrimReturns(AllButLast(Split(text, NEWLINE_BYTE))) }
  function Tail(text: Bytes): Bytes { LastOf(Split(text, NEWLINE_BYTE)) }

  /** All lines; the open one counts when there is one. */
  function AllLines(text: Bytes): seq<Bytes> {
    Complete(text) + (if Tail(text) == [] then [] else [Tail(text)])
  }

  lemma CompleteConcat(a: Bytes, b: Bytes)
    ensures Complete(a + b) == Complete(a) + Complete(Tail(a) + b)
    ensures Tail(a + b) == Tail(Tail(a) + b)
  {
    SplitConcat(a, b, NEWLINE_BYTE);
    hide Split;
    var first, rest := AllButLast(Split(a, NEWLINE_BYTE)), Split(Tail(a) + b, NEWLINE_BYTE);
    assert AllButLast(first + rest) == first + AllButLast(rest);
    assert TrimReturns(first + AllButLast(rest)) == TrimReturns(first) + TrimReturns(AllButLast(rest));
  }

  lemma CompleteLine(line: Bytes)
    requires NEWLINE_BYTE !in line
    ensures Complete(line + [NEWLINE_BYTE]) == [TrimReturn(line)] && Tail(line + [NEWLINE_BYTE]) == []
    ensures Complete(line) == [] && Tail(line) == line
  {
    SplitLine(line, [], NEWLINE_BYTE);
    SplitSingle(line, NEWLINE_BYTE);
    assert line + [NEWLINE_BYTE] + [] == line + [NEWLINE_BYTE];
    assert Split<Byte>([], NEWLINE_BYTE) == [[]];
  }

  lemma TailIsOpen(text: Bytes)
    ensures NEWLINE_BYTE !in Tail(text)
    ensures Complete(Tail(text)) == [] && Tail(Tail(text)) == Tail(text)
  {
    assert Tail(text) in Split(text, NEWLINE_BYTE);
    CompleteLine(Tail(text));
  }

  // ---- one run of the follower ----

  // What is kept per run: the state while it is followed, the offset where the
  // previous follower stopped, and the lines handed on so far.
  datatype RunView = RunView(state: Option<FollowState>, stopped: nat, lines: seq<Bytes>, summaries: nat)

  // Reading what was appended: the new offset, the lines and the open tail.
  function Read(st: FollowState, file: Bytes): (r: (FollowState, seq<Bytes>)) {
    var from := if |file| < st.offset then FollowState(0, [], st.badLines) else st;
    if |file| == from.offset then (from, [])
    else
      var buffer := from.pending + file[from.offset..];
      (from.(offset := |file|, pending := Tail(buffer)), Complete(buffer))
  }

  // The end of a drain: the final tail is handed on, an oversized one dropped.
  function Close(st: FollowState, final: bool): (FollowState, seq<Bytes>) {
    if final && st.pending != [] then (st.(pending := []), [st.pending])
    else if |st.pending| > MAX_LINE_BYTES then (st.(pending := [], badLines := st.badLines + 1), [])
    else (st, [])
  }

  // drain of a file of admissible size.
  function Drained(st: FollowState, file: Bytes, final: bool): (FollowState, seq<Bytes>) {
    var (st1, lines) := Read(st, file);
    var (st2, last) := Close(st1, final);
    (st2, lines + last)
  }

  function TickRun(r: RunView, file: Option<Bytes>): RunView {
    if r.state.None? || file.None? then r
    else if |file.value| > MAX_FILE_BYTES then
      RunView(None, r.state.value.offset, r.lines, r.summaries + 1)
    else
      var (st, lines) := Drained(r.state.value, file.value, false);
      r.(state := Some(st), lines := r.lines + lines)
  }

  function FollowRun(r: RunView): RunView {
    if r.state.Some? then r else r.(state := Some(FollowState(r.stopped, [], 0)))
  }

  function FinishRun(r: RunView, file: Option<Bytes>): RunView {
    if r.state.None? then r
    else if file.None? then r.(state := None, stopped := r.state.value.offset)
    else if |file.value| > MAX_FILE_BYTES then
      RunView(None, r.state.value.offset, r.lines, r.summaries + 1)
    else
      var (st, lines) := Drained(r.state.value, file.value, true);
      r.(state := None, stopped := st.offset, lines := r.lines + lines)
  }

  // ---- the follower ----

  class Follower {
    var states: map<RunId, FollowState>
    var stoppedOffsets: map<RunId, nat>
    // What handleLine was given, and the truncation summaries, per run.
    var handled: map<RunId, seq<Bytes>>
    var summaries: map<RunId, nat>

    constructor ()
      ensures forall r :: View(r) == RunView(None, 0, [], 0)
    {
      states, stoppedOffsets, handled, summaries := map[], map[], map[], map[];
    }

    function View(r: RunId): RunView
      reads this
    {
      RunView(if r in states then Some(states[r]) else None,
              if r in stoppedOffsets then stoppedOffsets[r] else 0,
              if r in handled then handled[r] else [],
              if r in summaries then summaries[r] else 0)
    }

    method HandleLine(r: RunId, line: Bytes)
      modifies this`handled
      ensures View(r) == old(View(r)).(lines := old(View(r)).lines + [line])
      ensures forall q | q != r :: View(q) == old(View(q))
    {
      handled := handled[r := (if r in handled then handled[r] else []) + [line]];
    }

    method StopTruncated(r: RunId, st: FollowState)
      modifies this
      ensures View(r) == RunView(None, st.offset, old(View(r)).lines, old(View(r)).summaries + 1)
      ensures states == old(states) - {r} && stoppedOffsets == old(stoppedOffsets)[r := st.offset]
      ensures forall q | q != r :: View(q) == old(View(q))
    {
      states := states - {r};
      stoppedOffsets := stoppedOffsets[r := st.offset];
      summaries := summaries[r := (if r in summaries then summaries[r] else 0) + 1];
    }

    // The index loop over the buffer: every complete line is handed on once.
    method HandleComplete(r: RunId, buffer: Bytes) returns (pending: Bytes)
      modifies this`handled
      ensures View(r).lines == old(View(r)).lines + Complete(buffer) && pending == Tail(buffer)
      ensures forall q | q != r :: View(q) == old(View(q))
    {
      var complete := AfterLastNewline(buffer);
      HandleLines(r, buffer, complete);
      AfterLines(buffer, complete);
      return buffer[complete..];
    }

    method HandleLines(r: RunId, buffer: Bytes, complete: nat)
      requires complete <= |buffer| && (complete > 0 ==> buffer[complete - 1] == NEWLINE_BYTE)
      modifies this`handled
      ensures View(r).lines == old(View(r)).lines + Complete(buffer[..complete]) && Tail(buffer[..complete]) == []
      ensures forall q | q != r :: View(q) == old(View(q))
    {
      ghost var before := View(r).lines;
      NothingRead(before);
      hide *;
      var position, index := 0, 0;
      while index < complete
        invariant 0 <= position <= index <= complete
        invariant NEWLINE_BYTE !in buffer[position..index]
        invariant Tail(buffer[..position]) == []
        invariant View(r).lines == before + Complete(buffer[..position])
        invariant index == complete ==> position == complete
        invariant forall q | q != r :: View(q) == old(View(q))
      {
        if buffer[index] == NEWLINE_BYTE {
          var end := if index > position && buffer[index - 1] == RETURN then index - 1 else index;
          LineEnds(buffer, position, index);
          HandleLine(r, buffer[position..end]);
          position := index + 1;
        } else {
          assert buffer[position..index + 1] == buffer[position..index] + [buffer[index]];
        }
        index := index + 1;
      }
    }

    // Everything drain does to a file of admissible size.
    method Drain(r: RunId, st: FollowState, file: Bytes, final: bool) returns (st': FollowState)
      requires |file| <= MAX_FILE_BYTES
      modifies this`handled
      ensures (st', View(r).lines) == (Drained(st, file, final).0, old(View(r)).lines + Drained(st, file, final).1)
      ensures forall q | q != r :: View(q) == old(View(q))
    {
      ghost var before := View(r).lines;
      assert before + [] == before;
      st' := st;
      if |file| < st'.offset {
        st' := FollowState(0, [], st'.badLines);
      }
      if |file| > st'.offset {
        var buffer := st'.pending + file[st'.offset..];
        var pending := HandleComplete(r, buffer);
        st' := st'.(offset := |file|, pending := pending);
      }
      ghost var st1, lines := st', Read(st, file).1;
      assert (st1, View(r).lines) == (Read(st, file).0, before + lines);
      assert Drained(st, file, final) == (Close(st1, final).0, lines + Close(st1, final).1);
      if final && |st'.pending| > 0 {
        var tail := st'.pending;
        st' := st'.(pending := []);
        HandleLine(r, tail);
        assert Close(st1, final) == (st', [tail]);
        assert View(r).lines == before + lines + [tail];
        assert before + lines + [tail] == before + (lines + [tail]);
      } else {
        assert before + lines + [] == before + (lines + []);
      }
      if |st'.pending| > MAX_LINE_BYTES {
        st' := st'.(pending := [], badLines := st'.badLines + 1);
      }
      assert st' == Close(st1, final).0;
      assert View(r).lines == before + (lines + Close(st1, final).1);
    }

    method DrainRun(r: RunId, file: Option<Bytes>)
      requires r in states
      modifies this
      ensures View(r) == TickRun(old(View(r)), file)
      ensures forall q | q != r :: View(q) == old(View(q))
    {
      if file.None? {
        return;
      }
      if |file.value| > MAX_FILE_BYTES {
        StopTruncated(r, states[r]);
        return;
      }
      var st := Drain(r, states[r], file.value, false);
      states := states[r := st];
    }

    // One timer tick over the runs followed when it starts.
    method Tick(order: seq<RunId>, files: map<RunId, Bytes>)
      requires forall r :: r in order <==> r in states
      requires forall i, j | 0 <= i < j < |order| :: order[i] != order[j]
      modifies this
      ensures forall r :: View(r) == TickRun(old(View(r)), FileOf(files, r))
    {
      for i := 0 to |order|
        invariant forall r :: r in order[..i] ==> View(r) == TickRun(old(View(r)), FileOf(files, r))
        invariant forall r :: r !in order[..i] ==> View(r) == old(View(r))
      {
        var r := order[i];
        assert order[..i + 1] == order[..i] + [r];
        assert r !in order[..i];
        assert View(r) == old(View(r)) && r in states;
        DrainRun(r, FileOf(files, r));
      }
      assert order[..|order|] == order;
    }

    method Follow(r: RunId)
      modifies this`states
      ensures View(r) == FollowRun(old(View(r)))
      ensures forall q | q != r :: View(q) == old(View(q))
    {
      if r in states {
        return;
      }
      states := states[r := FollowState(if r in stoppedOffsets then stoppedOffsets[r] else 0, [], 0)];
    }

    method Finish(r: RunId, file: Option<Bytes>)
      modifies this
      ensures View(r) == FinishRun(old(View(r)), file)
      ensures forall q | q != r :: View(q) == old(View(q))
    {
      if r !in states {
        return;
      }
      var st := states[r];
      states := states - {r};
      assert forall q | q != r :: View(q) == old(View(q));
      if file.Some? {
        if |file.value| > MAX_FILE_BYTES {
          StopTruncated(r, st);
        } else {
          st := Drain(r, st, file.value, true);
        }
      }
      assert forall q | q != r :: View(q) == old(View(q));
      stoppedOffsets := stoppedOffsets[r := st.offset];
    }
  }

  // buffer.lastIndexOf(0x0a) + 1
  method AfterLastNewline(buffer: Bytes) returns (complete: nat)
    ensures complete <= |buffer| && NEWLINE_BYTE !in buffer[complete..]
    ensures complete > 0 ==> buffer[complete - 1] == NEWLINE_BYTE
  {
    complete := |buffer|;
    while complete > 0 && buffer[complete - 1] != NEWLINE_BYTE
      invariant complete <= |buffer|
      invariant NEWLINE_BYTE !in buffer[complete..]
    {
      assert buffer[complete - 1..] == [buffer[complete - 1]] + buffer[complete..];
      complete := complete - 1;
    }
  }

  lemma NothingRead(lines: seq<Bytes>)
    ensures Tail([]) == [] && lines + Complete([]) == lines
  {
    CompleteLine([]);
  }

  // The open tail is what follows the last newline.
  lemma AfterLines(buffer: Bytes, complete: nat)
    requires complete <= |buffer| && NEWLINE_BYTE !in buffer[complete..] && Tail(buffer[..complete]) == []
    ensures Complete(buffer) == Complete(buffer[..complete]) && Tail(buffer) == buffer[complete..]
  {
    assert buffer == buffer[..complete] + buffer[complete..];
    CompleteConcat(buffer[..complete], buffer[complete..]);
    CompleteLine(buffer[complete..]);
    assert [] + buffer[complete..] == buffer[complete..];
  }

  function FileOf(files: map<RunId, Bytes>, r: RunId): Option<Bytes> {
    if r in files then Some(files[r]) else None
  }

  // The scan meets the newline that ends the line starting at `position`.
  lemma LineEnds(buffer: Bytes, position: nat, index: nat)
    requires position <= index < |buffer| && buffer[index] == NEWLINE_BYTE
    requires NEWLINE_BYTE !in buffer[position..index] && Tail(buffer[..position]) == []
    ensures Tail(buffer[..index + 1]) == []
    ensures Complete(buffer[..index + 1]) == Complete(buffer[..position]) + [TrimReturn(buffer[position..index])]
    ensures TrimReturn(buffer[position..index]) ==
      buffer[position..if index > position && buffer[index - 1] == RETURN then index - 1 else index]
  {
    var line := buffer[position..index];
    assert buffer[..index + 1] == buffer[..position] + (line + [NEWLINE_BYTE]);
    CompleteConcat(buffer[..position], line + [NEWLINE_BYTE]);
    CompleteLine(line);
    assert [] + (line + [NEWLINE_BYTE]) == line + [NEWLINE_BYTE];
  }
}
