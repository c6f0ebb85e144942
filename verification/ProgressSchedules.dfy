/**
 * What the follower delivers over a whole life of a run: whatever the ticks, the
 * lines handed on are those of the bytes read between two finishes.
 */
module ProgressSchedules {
  import opened Common
  import opened TextLines
  import opened ProgressFollower

  // The file only grows: at each event its size is a position in its final text.
  datatype Event = Followed | Ticked(size: nat) | Finished(size: nat)

  ghost predicate Growing(text: Bytes, trace: seq<Event>, size: nat)
    decreases |trace|
  {
    trace == []
    || (trace[0].Followed? && Growing(text, trace[1..], size))
    || (!trace[0].Followed? && size <= trace[0].size <= |text| && Growing(text, trace[1..], trace[0].size))
  }

  function SizeAfter(e: Event, size: nat): nat { if e.Followed? then size else e.size }

  function Step(r: RunView, text: Bytes, e: Event): RunView
    requires e.Followed? || e.size <= |text|
  {
    match e
    case Followed => FollowRun(r)
    case Ticked(n) => TickRun(r, Some(text[..n]))
    case Finished(n) => FinishRun(r, Some(text[..n]))
  }

  ghost function After(r: RunView, text: Bytes, trace: seq<Event>, size: nat): RunView
    requires Growing(text, trace, size)
    decreases |trace|
  {
    if trace == [] then r
    else After(Step(r, text, trace[0]), text, trace[1..], SizeAfter(trace[0], size))
  }

  /**
   * The simple form: where the current follow started, how far it read, and the
   * lines of the follows before it.
   */
  datatype Simple = Simple(base: nat, read: nat, following: bool, closed: seq<Bytes>)

  function SimpleStep(s: Simple, text: Bytes, e: Event): Simple
    requires s.base <= s.read && (e.Followed? || s.read <= e.size <= |text|)
  {
    match e
    case Followed => s.(following := true)
    case Ticked(n) => if s.following then s.(read := n) else s
    case Finished(n) =>
      if s.following then Simple(n, n, false, s.closed + AllLines(text[s.base..n])) else s
  }

  ghost function SimpleAfter(s: Simple, text: Bytes, trace: seq<Event>, size: nat): (s': Simple)
    requires Growing(text, trace, size) && s.base <= s.read <= size && s.read <= |text|
    ensures s'.base <= s'.read <= |text|
    decreases |trace|
  {
    if trace == [] then s
    else SimpleAfter(SimpleStep(s, text, trace[0]), text, trace[1..], SizeAfter(trace[0], size))
  }

  /** The follower has handed on exactly the lines of what it read. */
  ghost predicate Refines(r: RunView, s: Simple, text: Bytes) {
    && s.base <= s.read <= |text|
    && (if s.following then
          && r.state == Some(FollowState(s.read, Tail(text[s.base..s.read]), 0))
          && r.lines == s.closed + Complete(text[s.base..s.read])
        else r.state == None && r.stopped == s.base == s.read && r.lines == s.closed)
  }

  ghost predicate ShortLines(text: Bytes) {
    |text| <= MAX_FILE_BYTES && forall line | line in Split(text, NEWLINE_BYTE) :: |line| <= MAX_LINE_BYTES
  }

  // Text that follows an open line changes only the first of its lines.
  lemma Prepended(open: Bytes, b: Bytes)
    requires NEWLINE_BYTE !in open
    ensures |Split(open + b, NEWLINE_BYTE)| == |Split(b, NEWLINE_BYTE)|
    ensures Tail(open + b) == if NEWLINE_BYTE in b then Tail(b) else open + b
    ensures NEWLINE_BYTE !in b ==> Tail(b) == b
  {
    if NEWLINE_BYTE in b {
      var k := FirstNewline(b);
      assert b == b[..k] + [NEWLINE_BYTE] + b[k + 1..];
      PrependedLine(open, b[..k], b[k + 1..]);
    } else {
      SplitSingle(b, NEWLINE_BYTE);
      SplitSingle(open + b, NEWLINE_BYTE);
    }
  }

  lemma PrependedLine(open: Bytes, line: Bytes, rest: Bytes)
    requires NEWLINE_BYTE !in open && NEWLINE_BYTE !in line
    ensures var b := line + [NEWLINE_BYTE] + rest;
      |Split(open + b, NEWLINE_BYTE)| == |Split(b, NEWLINE_BYTE)| && Tail(open + b) == Tail(b)
  {
    var tail := Split(rest, NEWLINE_BYTE);
    SplitLine(line, rest, NEWLINE_BYTE);
    SplitLine(open + line, rest, NEWLINE_BYTE);
    hide Split;
    assert open + (line + [NEWLINE_BYTE] + rest) == open + line + [NEWLINE_BYTE] + rest;
    assert LastOf([line] + tail) == LastOf(tail) == LastOf([open + line] + tail);
  }

  lemma FirstNewline(b: Bytes) returns (k: nat)
    requires NEWLINE_BYTE in b
    ensures k < |b| && b[k] == NEWLINE_BYTE && NEWLINE_BYTE !in b[..k]
  {
    k := 0;
    while b[k] != NEWLINE_BYTE
      invariant k < |b| && NEWLINE_BYTE !in b[..k] && NEWLINE_BYTE in b[k..]
      decreases |b| - k
    {
      assert b[..k + 1] == b[..k] + [b[k]];
      assert b[k..] == [b[k]] + b[k + 1..];
      k := k + 1;
    }
  }

  // The open tail of any stretch of the file is within the line limit.
  lemma TailIsShort(text: Bytes, from: nat, to: nat)
    requires ShortLines(text) && from <= to <= |text|
    ensures |Tail(text[from..to])| <= MAX_LINE_BYTES
  {
    var a, b := text[..from], text[from..to];
    assert text[..to] == a + b && text == text[..to] + text[to..];
    OpenLineIsPrefix(text[..to], text[to..], NEWLINE_BYTE);
    CompleteConcat(a, b);
    TailIsOpen(a);
    Prepended(Tail(a), b);
  }

  lemma TickRefines(r: RunView, s: Simple, text: Bytes, n: nat)
    requires Refines(r, s, text) && ShortLines(text) && s.read <= n <= |text|
    ensures Refines(TickRun(r, Some(text[..n])), SimpleStep(s, text, Ticked(n)), text)
  {
    if s.following {
      ReadsOn(s, text, n);
      TailIsShort(text, s.base, n);
    }
  }

  // Reading on from an offset gives what reading the whole stretch gives.
  lemma ReadsOn(s: Simple, text: Bytes, n: nat)
    requires s.base <= s.read <= n <= |text|
    ensures var st := FollowState(s.read, Tail(text[s.base..s.read]), 0);
      && Read(st, text[..n]).0 == FollowState(n, Tail(text[s.base..n]), 0)
      && s.closed + Complete(text[s.base..s.read]) + Read(st, text[..n]).1 == s.closed + Complete(text[s.base..n])
  {
    var a, b := text[s.base..s.read], text[s.read..n];
    assert text[s.base..n] == a + b && text[..n][s.read..] == b;
    CompleteConcat(a, b);
    hide Complete, Tail;
    if n == s.read {
      assert s.closed + Complete(a) + [] == s.closed + Complete(a);
    } else {
      assert s.closed + Complete(a) + Complete(Tail(a) + b) == s.closed + (Complete(a) + Complete(Tail(a) + b));
    }
  }

  lemma FinishRefines(r: RunView, s: Simple, text: Bytes, n: nat)
    requires Refines(r, s, text) && ShortLines(text) && s.read <= n <= |text|
    ensures Refines(FinishRun(r, Some(text[..n])), SimpleStep(s, text, Finished(n)), text)
  {
    if s.following {
      ReadsOn(s, text, n);
      TailIsShort(text, s.base, n);
      var st := r.state.value;
      hide Complete, Tail, Read;
      var read, tail := Read(st, text[..n]), Tail(text[s.base..n]);
      var last := if tail == [] then [] else [tail];
      assert Drained(st, text[..n], true) == (read.0.(pending := []), read.1 + last);
      assert s.closed + Complete(text[s.base..s.read]) + (read.1 + last)
          == s.closed + Complete(text[s.base..s.read]) + read.1 + last;
      assert s.closed + (Complete(text[s.base..n]) + last) == s.closed + Complete(text[s.base..n]) + last;
    }
  }

  lemma FollowRefines(r: RunView, s: Simple, text: Bytes)
    requires Refines(r, s, text)
    ensures Refines(FollowRun(r), SimpleStep(s, text, Followed), text)
  {
    CompleteLine([]);
    assert text[s.base..s.base] == [];
    assert s.closed + [] == s.closed;
  }

  lemma StepRefines(r: RunView, s: Simple, text: Bytes, e: Event)
    requires Refines(r, s, text) && ShortLines(text) && (e.Followed? || s.read <= e.size <= |text|)
    ensures Refines(Step(r, text, e), SimpleStep(s, text, e), text)
  {
    match e
    case Followed => FollowRefines(r, s, text);
    case Ticked(n) => TickRefines(r, s, text, n);
    case Finished(n) => FinishRefines(r, s, text, n);
  }

  /**
   * Every schedule of growth, ticks, finishes and follows hands on what the
   * simple form says: per follow, the lines of the bytes it read, once, in order.
   */
  lemma {:induction false} SchedulesRefine(r: RunView, s: Simple, text: Bytes, trace: seq<Event>, size: nat)
    requires Refines(r, s, text) && ShortLines(text) && s.read <= size && Growing(text, trace, size)
    ensures Refines(After(r, text, trace, size), SimpleAfter(s, text, trace, size), text)
    decreases |trace|
  {
    if trace != [] {
      var e := trace[0];
      StepRefines(r, s, text, e);
      hide Step, Refines, ShortLines;
      SchedulesRefine(Step(r, text, e), SimpleStep(s, text, e), text, trace[1..], SizeAfter(e, size));
    }
  }

  const START := RunView(None, 0, [], 0)
  const SIMPLE := Simple(0, 0, false, [])

  // Ticks only move the reading position.
  lemma {:induction false} OnlyTicks(s: Simple, text: Bytes, ticks: seq<Event>, size: nat)
    requires (forall e | e in ticks :: e.Ticked?) && Growing(text, ticks + [Finished(|text|)], size)
    requires s.following && s.base <= s.read <= size <= |text|
    ensures SimpleAfter(s, text, ticks + [Finished(|text|)], size)
         == Simple(|text|, |text|, false, s.closed + AllLines(text[s.base..]))
    decreases |ticks|
  {
    var trace := ticks + [Finished(|text|)];
    hide AllLines;
    if ticks == [] {
      assert trace[1..] == [] && trace[0] == Finished(|text|);
      assert text[s.base..|text|] == text[s.base..];
    } else {
      assert trace[0] == ticks[0] && trace[0] in ticks;
      assert trace[1..] == ticks[1..] + [Finished(|text|)];
      OnlyTicks(SimpleStep(s, text, trace[0]), text, ticks[1..], trace[0].size);
    }
  }

  /** One follow: the lines are those of the whole file, whatever the ticks were. */
  lemma OneFollowDeliversTheFile(text: Bytes, ticks: seq<Event>)
    requires ShortLines(text) && forall e | e in ticks :: e.Ticked?
    requires Growing(text, [Followed] + ticks + [Finished(|text|)], 0)
    ensures After(START, text, [Followed] + ticks + [Finished(|text|)], 0).lines == AllLines(text)
  {
    var trace := [Followed] + ticks + [Finished(|text|)];
    hide ShortLines, AllLines, Growing, Complete, Tail, Step;
    SchedulesRefine(START, SIMPLE, text, trace, 0);
    assert trace[0] == Followed && trace[1..] == ticks + [Finished(|text|)];
    GrowsOn(text, trace, 0);
    OnlyTicks(SIMPLE.(following := true), text, trace[1..][..|ticks|], 0);
    assert trace[1..][..|ticks|] == ticks;
    assert text[0..] == text && [] + AllLines(text) == AllLines(text);
  }

  lemma GrowsOn(text: Bytes, trace: seq<Event>, size: nat)
    requires trace != [] && Growing(text, trace, size)
    ensures Growing(text, trace[1..], SizeAfter(trace[0], size))
  {
  }

  // ---- following again ----

  ghost predicate FinishesAtLineEnds(text: Bytes, trace: seq<Event>) {
    forall e | e in trace && e.Finished? && e.size <= |text| :: Tail(text[..e.size]) == []
  }

  // So far the simple form has exactly the lines of the file from its start.
  ghost predicate Seamless(s: Simple, text: Bytes) {
    && s.base <= s.read <= |text|
    && Tail(text[..s.base]) == [] && s.closed == Complete(text[..s.base])
  }

  lemma SeamlessStep(s: Simple, text: Bytes, e: Event)
    requires Seamless(s, text) && (e.Followed? || s.read <= e.size <= |text|)
    requires e.Finished? ==> Tail(text[..e.size]) == []
    ensures Seamless(SimpleStep(s, text, e), text)
  {
    if e.Finished? && s.following {
      var a, b := text[..s.base], text[s.base..e.size];
      assert text[..e.size] == a + b && [] + b == b;
      CompleteConcat(a, b);
      hide Complete, Tail;
      assert Complete(b) + [] == Complete(b);
    }
  }

  lemma {:induction false} SeamlessRuns(s: Simple, text: Bytes, trace: seq<Event>, size: nat)
    requires Seamless(s, text) && s.read <= size && Growing(text, trace, size) && FinishesAtLineEnds(text, trace)
    ensures Seamless(SimpleAfter(s, text, trace, size), text)
    decreases |trace|
  {
    if trace != [] {
      var e := trace[0];
      assert e in trace && forall x | x in trace[1..] :: x in trace;
      SeamlessStep(s, text, e);
      hide Seamless;
      SeamlessBounds(SimpleStep(s, text, e), text);
      SeamlessRuns(SimpleStep(s, text, e), text, trace[1..], SizeAfter(e, size));
    }
  }

  lemma SeamlessBounds(s: Simple, text: Bytes)
    requires Seamless(s, text)
    ensures s.base <= s.read <= |text|
  {
  }

  /**
   * Finishing and following again, any number of times: as long as each finish
   * finds a terminated line, the lines are those of the bytes read, without a gap
   * and without a repetition.
   */
  lemma RestartsDeliverTheFile(text: Bytes, trace: seq<Event>)
    requires ShortLines(text) && Growing(text, trace, 0) && FinishesAtLineEnds(text, trace)
    ensures After(START, text, trace, 0).lines == Complete(text[..SimpleAfter(SIMPLE, text, trace, 0).read])
  {
    CompleteLine([]);
    assert text[..0] == [];
    SchedulesRefine(START, SIMPLE, text, trace, 0);
    SeamlessRuns(SIMPLE, text, trace, 0);
    var s := SimpleAfter(SIMPLE, text, trace, 0);
    var a, b := text[..s.base], text[s.base..s.read];
    assert text[..s.read] == a + b && [] + b == b;
    CompleteConcat(a, b);
    hide Complete, Tail, ShortLines, Growing, FinishesAtLineEnds;
    if !s.following { assert b == [] && a + b == a; }
  }

  /** Cutting a text in two keeps its lines exactly when no line is cut. */
  lemma CutKeepsLinesIff(a: Bytes, b: Bytes)
    ensures AllLines(a) + AllLines(b) == AllLines(a + b) <==> Tail(a) == [] || b == []
  {
    CompleteConcat(a, b);
    TailIsOpen(a);
    Prepended(Tail(a), b);
    Counted(a);
    Counted(b);
    Counted(a + b);
    CompleteLine([]);
    hide Complete, Tail;
    if Tail(a) == [] {
      assert [] + b == b;
      var last := if Tail(b) == [] then [] else [Tail(b)];
      assert Complete(a) + [] + (Complete(b) + last) == Complete(a) + Complete(b) + last;
    } else if b == [] {
      assert a + [] == a && AllLines(a) + [] == AllLines(a);
    } else {
      assert |AllLines(a) + AllLines(b)| == |AllLines(a + b)| + 1;
    }
  }

  lemma Counted(a: Bytes)
    ensures |Complete(a)| == |Split(a, NEWLINE_BYTE)| - 1
    ensures |AllLines(a)| == |Split(a, NEWLINE_BYTE)| - if Tail(a) == [] then 1 else 0
  {
  }
}
