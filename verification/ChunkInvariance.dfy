/**
 * Where a stream is cut into chunks: the extractor sees the lines of the whole,
 * except that a carriage return and newline cut apart count as two line ends.
 * That extra empty line is harmless exactly when no rule can tell.
 */
module ChunkInvariance {
  import opened Common
  import opened TextLines
  import opened CommandExtraction

  function Concat(chunks: seq<string>): string {
    if chunks == [] then "" else chunks[0] + Concat(chunks[1..])
  }

  predicate NoEnds(line: string) { forall c | c in line :: !Ends(c) }

  // A line the extractor buffers completely.
  predicate Legal(line: string) { NoEnds(line) && |line| <= MAX_PENDING_LINE_LENGTH }

  ghost predicate Bounded(text: string) {
    forall l | l in Lines(text) :: |l| <= MAX_PENDING_LINE_LENGTH
  }

  predicate Starts(s: string, c: char) { s != "" && s[0] == c }
  predicate EndsIn(s: string, c: char) { s != "" && s[|s| - 1] == c }

  // The cut between a and b falls inside a CRLF pair.
  predicate CutsPair(a: string, b: string) { EndsIn(a, '\r') && Starts(b, '\n') }

  predicate NoPairCut(chunks: seq<string>) {
    chunks == [] || (!CutsPair(chunks[0], Concat(chunks[1..])) && NoPairCut(chunks[1..]))
  }

  // ---- lines of a text in two parts ----

  lemma {:induction false} LinesHaveNoEnds(s: string)
    ensures forall l | l in Lines(s) :: NoEnds(l)
    decreases |s|
  {
    if s == "" {
    } else if s[0] == '\r' && |s| > 1 && s[1] == '\n' {
      LinesHaveNoEnds(s[2..]);
    } else {
      LinesHaveNoEnds(s[1..]);
      if !Ends(s[0]) {
        var rest := Lines(s[1..]);
        assert rest[0] in rest && NoEnds([s[0]] + rest[0]);
        assert forall l | l in rest[1..] :: l in rest;
      }
    }
  }

  lemma {:induction false} LinesConcat(a: string, b: string)
    requires !CutsPair(a, b)
    ensures Lines(a + b) == AllButLast(Lines(a)) + Lines(LastOf(Lines(a)) + b)
    decreases |a|
  {
    var s := a + b;
    if a == "" {
      assert s == b && "" + b == b;
    } else if a[0] == '\r' && |a| > 1 && a[1] == '\n' {
      assert s[2..] == a[2..] + b;
      LinesConcat(a[2..], b);
      Prefixed([""], Lines(a[2..]), Lines(LastOf(Lines(a[2..])) + b));
    } else if Ends(a[0]) {
      assert s[1..] == a[1..] + b;
      LinesConcat(a[1..], b);
      Prefixed([""], Lines(a[1..]), Lines(LastOf(Lines(a[1..])) + b));
    } else {
      assert s[1..] == a[1..] + b && s[0] == a[0];
      LinesConcat(a[1..], b);
      OpenedBy(a[0], Lines(a[1..]), b);
    }
  }

  lemma Prefixed(first: seq<string>, lines: seq<string>, tail: seq<string>)
    requires |lines| >= 1
    ensures first + (AllButLast(lines) + tail) == AllButLast(first + lines) + tail
    ensures LastOf(first + lines) == LastOf(lines)
  {
  }

  // A character before an open text extends its first line.
  lemma OpenedBy(c: char, rest: seq<string>, b: string)
    requires !Ends(c) && |rest| >= 1
    ensures var lines := [[c] + rest[0]] + rest[1..];
      var joined := AllButLast(rest) + Lines(LastOf(rest) + b);
      [[c] + joined[0]] + joined[1..] == AllButLast(lines) + Lines(LastOf(lines) + b)
  {
    var lines := [[c] + rest[0]] + rest[1..];
    var open := LastOf(rest) + b;
    if |rest| == 1 {
      assert LastOf(lines) + b == [c] + open;
      assert ([c] + open)[1..] == open;
      assert AllButLast(rest) + Lines(open) == Lines(open);
    } else {
      assert LastOf(lines) == LastOf(rest);
      assert (AllButLast(rest) + Lines(open))[1..] == AllButLast(rest)[1..] + Lines(open);
      assert AllButLast(lines) == [[c] + rest[0]] + AllButLast(rest)[1..];
    }
  }

  lemma NoCutAfter(open: string, rest: string)
    requires NoEnds(open)
    ensures !CutsPair(open, rest)
  {
    if open != "" { assert open[|open| - 1] in open; }
  }

  // An open line before a line end.
  lemma {:induction false} AfterOpen(open: string, rest: string)
    requires NoEnds(open) && rest != "" && Ends(rest[0]) && Lines(rest)[0] == ""
    ensures Lines(open + rest) == [open] + Lines(rest)[1..]
  {
    if open == "" {
      assert open + rest == rest;
    } else {
      assert open[0] in open;
      assert (open + rest)[1..] == open[1..] + rest;
      AfterOpen(open[1..], rest);
      assert [open[0]] + open[1..] == open;
    }
  }

  // Cut inside a pair: nothing is pending and the newline is read by itself.
  lemma LinesOfCutPair(a: string, b: string)
    requires CutsPair(a, b)
    ensures LastOf(Lines(a)) == "" && AllButLast(Lines(a)) != []
    ensures Lines(a + b) == AllButLast(Lines(a)) + Lines(b[1..])
    ensures Lines(b) == [""] + Lines(b[1..])
  {
    var a0 := a[..|a| - 1];
    assert a == a0 + "\r" && a + b == a0 + ("\r" + b);
    PairEnd(b);
    EndOpen(a0, "\r");
    EndOpen(a0, "\r" + b);
    hide *;
    assert ["", ""][1..] == [""] && ([""] + Lines(b[1..]))[1..] == Lines(b[1..]);
    assert AllButLast(Lines(a0) + [""]) == Lines(a0) && LastOf(Lines(a0) + [""]) == "" by { Ended(Lines(a0)); }
  }

  lemma PairEnd(b: string)
    requires Starts(b, '\n')
    ensures Lines("\r") == ["", ""] && Lines(b) == [""] + Lines(b[1..])
    ensures Lines("\r" + b) == [""] + Lines(b[1..])
  {
    assert ("\r" + b)[2..] == b[1..] && "\r"[1..] == "";
  }

  // A line end after a text closes its last line.
  lemma EndOpen(a: string, rest: string)
    requires rest != "" && Ends(rest[0]) && Lines(rest)[0] == "" && !CutsPair(a, rest)
    ensures Lines(a + rest) == Lines(a) + Lines(rest)[1..]
  {
    LinesConcat(a, rest);
    LinesHaveNoEnds(a);
    var open := LastOf(Lines(a));
    assert open in Lines(a);
    AfterOpen(open, rest);
    hide Lines, NoEnds, CutsPair;
    Regroup(Lines(a), Lines(rest)[1..]);
  }

  lemma Regroup(lines: seq<string>, tail: seq<string>)
    requires |lines| >= 1
    ensures AllButLast(lines) + ([LastOf(lines)] + tail) == lines + tail
  {
  }

  lemma Ended(lines: seq<string>)
    ensures LastOf(lines + [""]) == "" && AllButLast(lines + [""]) == lines
  {
  }

  // ---- the lines a chunked stream recognizes ----

  function Closing(open: string): seq<string> { if open == "" then [] else [open] }

  // The lines of a whole text; an open last line counts when there is one.
  function WholeLines(text: string): seq<string> {
    AllButLast(Lines(text)) + Closing(LastOf(Lines(text)))
  }

  function ChunkedLines(pending: string, chunks: seq<string>): seq<string>
    decreases |chunks|
  {
    if chunks == [] then Closing(pending)
    else
      var lines := Lines(pending + chunks[0]);
      AllButLast(lines) + ChunkedLines(LastOf(lines), chunks[1..])
  }

  // What is pending is the start of a line, or nothing.
  lemma OpenIsShort(a: string, b: string)
    requires Bounded(a + b)
    ensures |LastOf(Lines(a))| <= MAX_PENDING_LINE_LENGTH
  {
    if CutsPair(a, b) {
      LinesOfCutPair(a, b);
    } else {
      LinesConcat(a, b);
      var open := LastOf(Lines(a));
      LinesHaveNoEnds(a);
      OpenStarts(open, b);
      assert Lines(open + b)[0] in Lines(a + b);
    }
  }

  lemma {:induction false} OpenStarts(open: string, b: string)
    requires NoEnds(open)
    ensures open <= Lines(open + b)[0]
  {
    if open != "" {
      assert open[0] in open;
      assert (open + b)[1..] == open[1..] + b;
      OpenStarts(open[1..], b);
    }
  }

  lemma BoundedRest(a: string, b: string)
    requires Bounded(a + b)
    ensures Bounded(LastOf(Lines(a)) + b)
  {
    var open := LastOf(Lines(a));
    if CutsPair(a, b) {
      LinesOfCutPair(a, b);
      assert open + b == b;
    } else {
      LinesConcat(a, b);
    }
  }

  // Within the bound nothing is forced: the commands are those of the lines.
  lemma {:induction false} ChunkedIsRecognized(rules: Rules, s: Stream, chunks: seq<string>)
    requires Bounded(s.pending + Concat(chunks))
    ensures Chunked(rules, s, chunks) == Recognized(rules, ChunkedLines(s.pending, chunks), s.markerMatched).0
    decreases |chunks|
  {
    hide Recognized, Lines, Bounded;
    if chunks == [] {
      NoLines(rules, s.markerMatched);
    } else {
      var text, rest := s.pending + chunks[0], Concat(chunks[1..]);
      assert s.pending + Concat(chunks) == text + rest;
      OpenIsShort(text, rest);
      BoundedRest(text, rest);
      var s1 := Pushed(rules, s, chunks[0]).0;
      ChunkedIsRecognized(rules, s1, chunks[1..]);
      RecognizedAppend(rules, AllButLast(Lines(text)), ChunkedLines(s1.pending, chunks[1..]), s.markerMatched);
    }
  }

  lemma OneShotIsRecognized(rules: Rules, text: string)
    requires Bounded(text)
    ensures OneShot(rules, text) == Recognized(rules, WholeLines(text), false).0
  {
    assert [text][1..] == [] && Concat([text]) == text + "" == text;
    assert "" + text == text;
    hide Lines, Recognized, Chunked, Bounded;
    ChunkedIsRecognized(rules, START, [text]);
    assert ChunkedLines("", [text]) == WholeLines(text);
  }

  lemma {:induction false} NoCutKeepsLines(pending: string, chunks: seq<string>)
    requires NoEnds(pending) && NoPairCut(chunks)
    ensures ChunkedLines(pending, chunks) == WholeLines(pending + Concat(chunks))
    decreases |chunks|
  {
    if chunks == [] {
      assert pending + "" == pending;
      LinesConcat(pending, "");
      OpenLine(pending);
    } else {
      var text, rest := pending + chunks[0], Concat(chunks[1..]);
      assert pending + Concat(chunks) == text + rest;
      StillNoCut(pending, chunks[0], rest);
      LinesConcat(text, rest);
      LinesHaveNoEnds(text);
      var open := LastOf(Lines(text));
      assert open in Lines(text);
      NoCutKeepsLines(open, chunks[1..]);
      hide Lines;
      var first, tail := AllButLast(Lines(text)), Lines(open + rest);
      assert AllButLast(first + tail) == first + AllButLast(tail) && LastOf(first + tail) == LastOf(tail);
    }
  }

  lemma StillNoCut(pending: string, chunk: string, rest: string)
    requires NoEnds(pending) && !CutsPair(chunk, rest)
    ensures !CutsPair(pending + chunk, rest)
  {
    if chunk == "" && pending != "" {
      assert pending + chunk == pending && pending[|pending| - 1] in pending;
    }
  }

  lemma {:induction false} OpenLine(line: string)
    requires NoEnds(line)
    ensures Lines(line) == [line]
  {
    if line != "" {
      assert line[0] in line;
      OpenLine(line[1..]);
      assert [line[0]] + line[1..] == line;
    }
  }

  /**
   * For all rules: any chunks that leave CRLF pairs whole yield the commands of
   * the one-shot form, in the same order.
   */
  lemma WholePairsAreInvariant(rules: Rules, chunks: seq<string>)
    requires Bounded(Concat(chunks)) && NoPairCut(chunks)
    ensures Chunked(rules, START, chunks) == OneShot(rules, Concat(chunks))
  {
    var text := Concat(chunks);
    assert "" + text == text;
    hide Lines, Recognized, Chunked, ChunkedLines, Bounded;
    ChunkedIsRecognized(rules, START, chunks);
    NoCutKeepsLines("", chunks);
    OneShotIsRecognized(rules, text);
  }

  // ---- pairs cut apart ----

  /** The one fact about the regular expressions: an empty line has no command. */
  ghost predicate EmptyIsSilent(rules: Rules) {
    forall m :: Commands(rules, "", m) == []
  }

  // No command depends on the marker of the line before.
  ghost predicate MarkerBlind(rules: Rules) {
    forall line | Legal(line) :: Commands(rules, line, true) == Commands(rules, line, false)
  }

  // Every line marks like an empty one.
  ghost predicate EmptyMarksAlike(rules: Rules) {
    forall line | Legal(line) :: IsMarker(rules, line) == IsMarker(rules, "")
  }

  lemma {:induction false} BlindToMarkers(rules: Rules, lines: seq<string>, m: bool, m': bool)
    requires MarkerBlind(rules) && forall l | l in lines :: Legal(l)
    ensures Recognized(rules, lines, m).0 == Recognized(rules, lines, m').0
  {
    hide Commands, IsMarker, Legal;
    if lines != [] {
      assert lines[0] in lines;
      assert Commands(rules, lines[0], m) == Commands(rules, lines[0], m');
    }
  }

  lemma {:induction false} MarksLikeEmpty(rules: Rules, lines: seq<string>, m: bool)
    requires EmptyMarksAlike(rules) && lines != [] && forall l | l in lines :: Legal(l)
    ensures Recognized(rules, lines, m).1 == IsMarker(rules, "")
    decreases |lines|
  {
    hide Commands, IsMarker, Legal;
    assert lines[0] in lines;
    if |lines| > 1 {
      MarksLikeEmpty(rules, lines[1..], IsMarker(rules, lines[0]));
    } else {
      NoLines(rules, IsMarker(rules, lines[0]));
      assert lines[1..] == [];
    }
  }

  // An empty line between `first` and `rest` changes nothing.
  lemma ExtraEmptyLine(rules: Rules, first: seq<string>, rest: seq<string>, m: bool)
    requires EmptyIsSilent(rules) && (MarkerBlind(rules) || EmptyMarksAlike(rules))
    requires first != [] && (forall l | l in first + rest :: Legal(l))
    ensures var m1 := Recognized(rules, first, m).1;
      Recognized(rules, [""] + rest, m1).0 == Recognized(rules, rest, m1).0
  {
    var m1 := Recognized(rules, first, m).1;
    var e := IsMarker(rules, "");
    hide Commands, IsMarker, Legal;
    assert ([""] + rest)[1..] == rest;
    assert Recognized(rules, [""] + rest, m1).0 == Commands(rules, "", m1) + Recognized(rules, rest, e).0;
    assert [] + Recognized(rules, rest, e).0 == Recognized(rules, rest, e).0;
    assert forall l | l in first :: l in first + rest;
    assert forall l | l in rest :: l in first + rest;
    if MarkerBlind(rules) {
      BlindToMarkers(rules, rest, m1, e);
    } else {
      MarksLikeEmpty(rules, first, m);
    }
  }

  lemma LegalLines(text: string)
    requires Bounded(text)
    ensures forall l | l in WholeLines(text) :: Legal(l)
    ensures forall l | l in AllButLast(Lines(text)) :: Legal(l)
  {
    LinesHaveNoEnds(text);
  }

  lemma {:induction false} AnyCutRecognizes(rules: Rules, pending: string, chunks: seq<string>, m: bool)
    requires EmptyIsSilent(rules) && (MarkerBlind(rules) || EmptyMarksAlike(rules))
    requires NoEnds(pending) && Bounded(pending + Concat(chunks))
    ensures Recognized(rules, ChunkedLines(pending, chunks), m).0 == Recognized(rules, WholeLines(pending + Concat(chunks)), m).0
    decreases |chunks|
  {
    hide Recognized, Lines, EmptyIsSilent, MarkerBlind, EmptyMarksAlike, Bounded;
    if chunks == [] {
      assert pending + "" == pending;
      OpenLine(pending);
      assert AllButLast([pending]) + Closing(pending) == Closing(pending);
    } else {
      var text, rest := pending + chunks[0], Concat(chunks[1..]);
      assert pending + Concat(chunks) == text + rest;
      var open := LastOf(Lines(text));
      LinesHaveNoEnds(text);
      BoundedRest(text, rest);
      var m1 := Recognized(rules, AllButLast(Lines(text)), m).1;
      AnyCutRecognizes(rules, open, chunks[1..], m1);
      RecognizedAppend(rules, AllButLast(Lines(text)), ChunkedLines(open, chunks[1..]), m);
      AfterCut(rules, text, rest, m);
    }
  }

  // One cut: recognizing the rest by itself gives what the whole gives.
  lemma AfterCut(rules: Rules, text: string, rest: string, m: bool)
    requires EmptyIsSilent(rules) && (MarkerBlind(rules) || EmptyMarksAlike(rules)) && Bounded(text + rest)
    ensures var first := AllButLast(Lines(text)); var open := LastOf(Lines(text));
      var m1 := Recognized(rules, first, m).1;
      Recognized(rules, WholeLines(text + rest), m).0
        == Recognized(rules, first, m).0 + Recognized(rules, WholeLines(open + rest), m1).0
  {
    if CutsPair(text, rest) {
      AfterPairCut(rules, text, rest, m);
    } else {
      var first, open := AllButLast(Lines(text)), LastOf(Lines(text));
      LinesConcat(text, rest);
      WholeAppend(text + rest, first, open + rest);
      hide *;
      RecognizedAppend(rules, first, WholeLines(open + rest), m);
    }
  }

  lemma AfterPairCut(rules: Rules, text: string, rest: string, m: bool)
    requires EmptyIsSilent(rules) && (MarkerBlind(rules) || EmptyMarksAlike(rules))
    requires Bounded(text + rest) && CutsPair(text, rest)
    ensures var first := AllButLast(Lines(text)); var open := LastOf(Lines(text));
      var m1 := Recognized(rules, first, m).1;
      Recognized(rules, WholeLines(text + rest), m).0
        == Recognized(rules, first, m).0 + Recognized(rules, WholeLines(open + rest), m1).0
  {
    var first := AllButLast(Lines(text));
    var tail := WholeLines(rest[1..]);
    LinesOfCutPair(text, rest);
    assert LastOf(Lines(text)) + rest == rest;
    WholeAppend(rest, [""], rest[1..]);
    WholeAppend(text + rest, first, rest[1..]);
    LegalLines(text + rest);
    hide *;
    RecognizedAppend(rules, first, tail, m);
    ExtraEmptyLine(rules, first, tail, m);
  }

  lemma WholeAppend(text: string, first: seq<string>, rest: string)
    requires Lines(text) == first + Lines(rest)
    ensures WholeLines(text) == first + WholeLines(rest)
  {
    hide Lines;
    var tail := Lines(rest);
    assert AllButLast(first + tail) == first + AllButLast(tail) && LastOf(first + tail) == LastOf(tail);
  }

  /** All chunkings of all bounded texts yield the one-shot commands. */
  ghost predicate Invariant(rules: Rules) {
    forall chunks | Bounded(Concat(chunks)) :: Chunked(rules, START, chunks) == OneShot(rules, Concat(chunks))
  }

  lemma InvariantIfBlind(rules: Rules)
    requires EmptyIsSilent(rules) && (MarkerBlind(rules) || EmptyMarksAlike(rules))
    ensures Invariant(rules)
  {
    forall chunks | Bounded(Concat(chunks)) ensures Chunked(rules, START, chunks) == OneShot(rules, Concat(chunks)) {
      var text := Concat(chunks);
      assert "" + text == text;
      hide Lines, Recognized, Chunked, ChunkedLines, Bounded, EmptyIsSilent, MarkerBlind, EmptyMarksAlike, OneShot;
      ChunkedIsRecognized(rules, START, chunks);
      AnyCutRecognizes(rules, "", chunks, false);
      OneShotIsRecognized(rules, text);
    }
  }

  /** Rules without afterMarker never depend on the line before. */
  lemma NoAfterMarkerIsBlind(rules: Rules)
    requires forall r | r in rules.agent :: r.afterMarker.None?
    ensures MarkerBlind(rules)
  {
    forall line | Legal(line) ensures Commands(rules, line, true) == Commands(rules, line, false) {
      PlainRules(rules.agent, Clean(rules, line));
    }
  }

  lemma {:induction false} PlainRules(agent: seq<Rule>, line: string)
    requires forall r | r in agent :: r.afterMarker.None?
    ensures RuleCommands(agent, line, true) == RuleCommands(agent, line, false)
  {
    if agent != [] {
      assert agent[0] in agent;
      PlainRules(agent[1..], line);
    }
  }

  // The witness: a line that marks unlike an empty one, then one whose commands tell.
  lemma CutPairTells(rules: Rules, marker: string, line: string)
    requires EmptyIsSilent(rules) && Legal(marker) && Legal(line)
    requires IsMarker(rules, marker) != IsMarker(rules, "")
    requires Commands(rules, line, true) != Commands(rules, line, false)
    ensures var chunks := [marker + "\r", "\n" + line];
      Bounded(Concat(chunks)) && Chunked(rules, START, chunks) != OneShot(rules, Concat(chunks))
  {
    var chunks := [marker + "\r", "\n" + line];
    var text := marker + "\r\n" + line;
    NotSilent(rules, line);
    TwoChunks(marker, line);
    hide *;
    assert "" + text == text;
    ChunkedIsRecognized(rules, START, chunks);
    OneShotIsRecognized(rules, text);
    TwoAndThree(rules, marker, line);
  }

  lemma NotSilent(rules: Rules, line: string)
    requires EmptyIsSilent(rules) && Commands(rules, line, true) != Commands(rules, line, false)
    ensures line != ""
  {
    hide Commands;
    assert Commands(rules, "", true) == Commands(rules, "", false);
  }

  lemma TwoChunks(marker: string, line: string)
    requires Legal(marker) && Legal(line) && line != ""
    ensures var chunks := [marker + "\r", "\n" + line]; var text := marker + "\r\n" + line;
      Concat(chunks) == text && Bounded(text) && START == Stream("", false)
      && ChunkedLines("", chunks) == [marker, "", line] && WholeLines(text) == [marker, line]
  {
    var chunks := [marker + "\r", "\n" + line];
    var text := marker + "\r\n" + line;
    PairLines(marker, line);
    hide Lines;
    assert Bounded(text);
    TwoConcat(marker, line);
    assert chunks[1..] == ["\n" + line];
    assert "" + (marker + "\r") == marker + "\r";
    LastChunk(line);
    assert [marker] + ["", line] == [marker, "", line];
  }

  lemma TwoConcat(marker: string, line: string)
    ensures Concat([marker + "\r", "\n" + line]) == marker + "\r\n" + line
  {
    assert [marker + "\r", "\n" + line][1..] == ["\n" + line] && ["\n" + line][1..] == [];
    assert Concat(["\n" + line]) == "\n" + line + "" == "\n" + line;
    assert marker + "\r" + ("\n" + line) == marker + "\r\n" + line;
  }

  lemma LastChunk(line: string)
    requires line != "" && Lines("\n" + line) == ["", line]
    ensures ChunkedLines("", ["\n" + line]) == ["", line]
  {
    hide Lines;
    assert "" + ("\n" + line) == "\n" + line && ["\n" + line][1..] == [];
    assert ChunkedLines(line, []) == [line];
    assert [""] + [line] == ["", line];
  }

  lemma PairLines(marker: string, line: string)
    requires NoEnds(marker) && NoEnds(line)
    ensures Lines(marker + "\r\n" + line) == [marker, line]
    ensures Lines(marker + "\r") == [marker, ""]
    ensures Lines("\n" + line) == ["", line]
  {
    OpenLine(line);
    OpenLine(marker);
    assert ("\n" + line)[1..] == line;
    assert marker + "\r\n" + line == marker + ("\r\n" + line);
    assert ("\r\n" + line)[2..] == line;
    NoCutAfter(marker, "\r\n" + line);
    NoCutAfter(marker, "\r");
    AfterOpen(marker, "\r\n" + line);
    AfterOpen(marker, "\r");
    assert "\r"[1..] == "" && Lines("\r") == ["", ""];
  }

  lemma TwoAndThree(rules: Rules, marker: string, line: string)
    requires EmptyIsSilent(rules)
    requires IsMarker(rules, marker) != IsMarker(rules, "")
    requires Commands(rules, line, true) != Commands(rules, line, false)
    ensures Recognized(rules, [marker, "", line], false).0 != Recognized(rules, [marker, line], false).0
  {
    hide Commands, IsMarker;
    var m, e := IsMarker(rules, marker), IsMarker(rules, "");
    var c := Commands(rules, marker, false);
    OneLine(rules, line, e);
    OneLine(rules, line, m);
    assert [marker, "", line][1..] == ["", line] && ["", line][1..] == [line] && [marker, line][1..] == [line];
    assert Commands(rules, "", m) == [];
    assert [] + Commands(rules, line, e) == Commands(rules, line, e);
    assert Recognized(rules, [marker, "", line], false).0 == c + Commands(rules, line, e);
    assert Recognized(rules, [marker, line], false).0 == c + Commands(rules, line, m);
    assert (c + Commands(rules, line, e))[|c|..] == Commands(rules, line, e);
    assert (c + Commands(rules, line, m))[|c|..] == Commands(rules, line, m);
  }

  /**
   * Chunking never matters exactly when no command depends on the marker of the
   * line before, or no line marks differently from an empty one.
   */
  lemma InvariantIff(rules: Rules)
    requires EmptyIsSilent(rules)
    ensures Invariant(rules) <==> MarkerBlind(rules) || EmptyMarksAlike(rules)
  {
    hide Legal, Commands, IsMarker, Bounded, Chunked, OneShot, Concat;
    if MarkerBlind(rules) || EmptyMarksAlike(rules) {
      InvariantIfBlind(rules);
    } else {
      var line :| Legal(line) && Commands(rules, line, true) != Commands(rules, line, false);
      var marker :| Legal(marker) && IsMarker(rules, marker) != IsMarker(rules, "");
      CutPairTells(rules, marker, line);
    }
  }
}
