/**
 * Command extraction from terminal output (command-extraction.ts): a
 * line-buffered extractor over chunks that end anywhere, against the one-shot
 * form.  The regular expressions and the removal of escape sequences are
 * parameters; all that is used of them is that an empty line yields no command.
 */
module CommandExtraction {
  import opened Common
  import opened TextLines

  const MAX_COMMAND_LENGTH: nat := 500
  const MAX_PENDING_LINE_LENGTH: nat := 8192

  // An Agent pattern: group 1 of a match on a line, and the marker test.
  datatype Rule = Rule(command: string -> Option<string>, afterMarker: Option<string -> bool>)

  // `prompt` is group 1 of the prompt pattern, `redraw` the leading marker test.
  datatype Rules = Rules(agent: seq<Rule>, prompt: string -> Option<string>, redraw: string -> bool, strip: string -> string)

  // ---- one line ----

  function Accepted(match1: Option<string>): seq<string> {
    if match1.Some? && 0 < |Trim(match1.value)| <= MAX_COMMAND_LENGTH then [Trim(match1.value)] else []
  }

  function RuleCommands(agent: seq<Rule>, line: string, markerMatched: bool): seq<string> {
    if agent == [] then []
    else
      (if agent[0].afterMarker.Some? && !markerMatched then [] else Accepted(agent[0].command(line)))
      + RuleCommands(agent[1..], line, markerMatched)
  }

  function PromptCommands(rules: Rules, line: string): seq<string> {
    var found := Accepted(rules.prompt(line));
    if found != [] && rules.redraw(found[0]) then [] else found
  }

  function Clean(rules: Rules, rawLine: string): string { TrimEnd(rules.strip(rawLine)) }

  function Commands(rules: Rules, rawLine: string, markerMatched: bool): seq<string> {
    var line := Clean(rules, rawLine);
    RuleCommands(rules.agent, line, markerMatched) + PromptCommands(rules, line)
  }

  predicate Marks(agent: seq<Rule>, line: string) {
    agent != [] && ((agent[0].afterMarker.Some? && agent[0].afterMarker.value(line)) || Marks(agent[1..], line))
  }

  predicate IsMarker(rules: Rules, rawLine: string) { Marks(rules.agent, Clean(rules, rawLine)) }

  method ExtractFromLine(rawLine: string, rules: Rules, markerMatched: bool) returns (commands: seq<string>, isMarker: bool)
    ensures commands == Commands(rules, rawLine, markerMatched) && isMarker == IsMarker(rules, rawLine)
  {
    hide RuleCommands, Marks, Accepted, Clean;
    var line := Clean(rules, rawLine);
    commands, isMarker := [], false;
    NoRules(line, markerMatched);
    for i := 0 to |rules.agent|
      invariant commands == RuleCommands(rules.agent[..i], line, markerMatched)
      invariant isMarker <==> Marks(rules.agent[..i], line)
    {
      var rule := rules.agent[i];
      OneMoreRule(rules.agent[..i], rule, line, markerMatched);
      assert rules.agent[..i + 1] == rules.agent[..i] + [rule];
      if rule.afterMarker.Some? && rule.afterMarker.value(line) {
        isMarker := true;
      }
      if rule.afterMarker.Some? && !markerMatched {
        continue;
      }
      commands := commands + Accepted(rule.command(line));
    }
    assert rules.agent[..|rules.agent|] == rules.agent;
    commands := commands + PromptCommands(rules, line);
  }

  lemma NoRules(line: string, markerMatched: bool)
    ensures RuleCommands([], line, markerMatched) == [] && !Marks([], line)
  {
  }

  lemma {:induction false} OneMoreRule(agent: seq<Rule>, rule: Rule, line: string, markerMatched: bool)
    ensures RuleCommands(agent + [rule], line, markerMatched) == RuleCommands(agent, line, markerMatched)
      + if rule.afterMarker.Some? && !markerMatched then [] else Accepted(rule.command(line))
    ensures Marks(agent + [rule], line) <==>
      Marks(agent, line) || (rule.afterMarker.Some? && rule.afterMarker.value(line))
  {
    hide Accepted;
    if agent == [] {
      assert (agent + [rule])[1..] == [];
    } else {
      assert (agent + [rule])[1..] == agent[1..] + [rule];
      OneMoreRule(agent[1..], rule, line, markerMatched);
    }
  }

  // ---- lines of a stream ----

  predicate Ends(c: char) { c == '\r' || c == '\n' }

  /** split(/\r\n|\r|\n/): a carriage return takes a following newline with it. */
  function Lines(s: string): (lines: seq<string>)
    ensures |lines| >= 1
  {
    if s == "" then [""]
    else if s[0] == '\r' && |s| > 1 && s[1] == '\n' then [""] + Lines(s[2..])
    else if Ends(s[0]) then [""] + Lines(s[1..])
    else
      var rest := Lines(s[1..]);
      [[s[0]] + rest[0]] + rest[1..]
  }

  // The state of a stream between chunks.
  datatype Stream = Stream(pending: string, markerMatched: bool)

  const START := Stream("", false)

  // The commands of successive lines, and the marker flag after them.
  function Recognized(rules: Rules, lines: seq<string>, markerMatched: bool): (seq<string>, bool)
    decreases |lines|
  {
    if lines == [] then ([], markerMatched)
    else
      var rest := Recognized(rules, lines[1..], IsMarker(rules, lines[0]));
      (Commands(rules, lines[0], markerMatched) + rest.0, rest.1)
  }

  lemma NoLines(rules: Rules, markerMatched: bool)
    ensures Recognized(rules, [], markerMatched) == ([], markerMatched)
  {
  }

  lemma {:induction false} RecognizedAppend(rules: Rules, a: seq<string>, b: seq<string>, markerMatched: bool)
    ensures var first := Recognized(rules, a, markerMatched); var rest := Recognized(rules, b, first.1);
      Recognized(rules, a + b, markerMatched) == (first.0 + rest.0, rest.1)
    decreases |a|
  {
    hide Commands, IsMarker;
    if a == [] {
      assert a + b == b;
      assert [] + Recognized(rules, b, markerMatched).0 == Recognized(rules, b, markerMatched).0;
    } else {
      assert (a + b)[1..] == a[1..] + b;
      RecognizedAppend(rules, a[1..], b, IsMarker(rules, a[0]));
      var c0, first := Commands(rules, a[0], markerMatched), Recognized(rules, a[1..], IsMarker(rules, a[0]));
      var rest := Recognized(rules, b, first.1);
      assert c0 + first.0 + rest.0 == c0 + (first.0 + rest.0);
    }
  }

  lemma OneLine(rules: Rules, line: string, markerMatched: bool)
    ensures Recognized(rules, [line], markerMatched) == (Commands(rules, line, markerMatched), IsMarker(rules, line))
  {
    hide Commands, IsMarker;
    assert [line][1..] == [];
    assert Commands(rules, line, markerMatched) + [] == Commands(rules, line, markerMatched);
  }

  lemma OneMoreLine(rules: Rules, lines: seq<string>, line: string, markerMatched: bool)
    ensures var (commands, m) := Recognized(rules, lines, markerMatched);
      Recognized(rules, lines + [line], markerMatched) == (commands + Commands(rules, line, m), IsMarker(rules, line))
  {
    hide Commands, IsMarker;
    RecognizedAppend(rules, lines, [line], markerMatched);
    OneLine(rules, line, Recognized(rules, lines, markerMatched).1);
  }

  // The lines a push completes, and what stays pending.
  function Completed(text: string): (seq<string>, string) {
    var lines := Lines(text);
    var open := LastOf(lines);
    if |open| > MAX_PENDING_LINE_LENGTH then (AllButLast(lines) + [open], "") else (AllButLast(lines), open)
  }

  function Pushed(rules: Rules, s: Stream, chunk: string): (Stream, seq<string>) {
    var (lines, pending) := Completed(s.pending + chunk);
    var (commands, markerMatched) := Recognized(rules, lines, s.markerMatched);
    (Stream(pending, markerMatched), commands)
  }

  function Flushed(rules: Rules, s: Stream): (Stream, seq<string>) {
    if s.pending == "" then (s, [])
    else
      var (commands, markerMatched) := Recognized(rules, [s.pending], s.markerMatched);
      (Stream("", markerMatched), commands)
  }

  class CommandExtractor {
    const rules: Rules
    var pending: string
    var markerMatched: bool

    constructor (rules: Rules)
      ensures this.rules == rules && View() == START
    {
      this.rules := rules;
      pending, markerMatched := "", false;
    }

    ghost function View(): Stream
      reads this
    {
      Stream(pending, markerMatched)
    }

    method Recognize(lines: seq<string>) returns (commands: seq<string>)
      modifies this`markerMatched
      ensures (commands, markerMatched) == Recognized(rules, lines, old(markerMatched))
    {
      hide Recognized;
      commands := [];
      NoLines(rules, markerMatched);
      for i := 0 to |lines|
        invariant (commands, markerMatched) == Recognized(rules, lines[..i], old(markerMatched))
      {
        OneMoreLine(rules, lines[..i], lines[i], old(markerMatched));
        assert lines[..i + 1] == lines[..i] + [lines[i]];
        var found, isMarker := ExtractFromLine(lines[i], rules, markerMatched);
        commands := commands + found;
        markerMatched := isMarker;
      }
      assert lines[..|lines|] == lines;
    }

    method Push(chunk: string) returns (commands: seq<string>)
      modifies this
      ensures (View(), commands) == Pushed(rules, old(View()), chunk)
    {
      pending := pending + chunk;
      var lines := Lines(pending);
      pending := lines[|lines| - 1];
      lines := lines[..|lines| - 1];
      if |pending| > MAX_PENDING_LINE_LENGTH {
        lines := lines + [pending];
        pending := "";
      }
      commands := Recognize(lines);
    }

    method Flush() returns (commands: seq<string>)
      modifies this
      ensures (View(), commands) == Flushed(rules, old(View()))
    {
      var rest := pending;
      pending := "";
      if |rest| == 0 {
        return [];
      }
      commands := Recognize([rest]);
    }
  }

  // All chunks of a stream, then the flush.
  function Chunked(rules: Rules, s: Stream, chunks: seq<string>): seq<string>
    decreases |chunks|
  {
    if chunks == [] then Flushed(rules, s).1
    else
      var (s1, commands) := Pushed(rules, s, chunks[0]);
      commands + Chunked(rules, s1, chunks[1..])
  }

  function OneShot(rules: Rules, text: string): seq<string> { Chunked(rules, START, [text]) }

  method ExtractExecutedCommands(rules: Rules, text: string) returns (commands: seq<string>)
    ensures commands == OneShot(rules, text)
  {
    var extractor := new CommandExtractor(rules);
    var pushed := extractor.Push(text);
    hide Pushed, Flushed;
    assert [text][1..] == [];
    assert Chunked(rules, extractor.View(), []) == Flushed(rules, extractor.View()).1;
    var flushed := extractor.Flush();
    commands := pushed + flushed;
  }
}
