/**
 * What the directive grammar promises: however a message's directives are
 * ordered and spelled, parsing gives back exactly them and the prompt.
 */
module DirectiveRoundTrips {
  import opened Common
  import opened TextLines
  import opened DirectiveTokens
  import opened MessageDirectives

  datatype Directive =
    | Agent(value: string)
    | Account(value: string)
    | Mode(mode: ExecutionMode)
    | Approval(value: string)
    | Model(value: string)
    | Workflow(test: Option<string>)
  {
    function Name(): string {
      match this
      case Agent(_) => "agent"
      case Account(_) => "account"
      case Mode(_) => "mode"
      case Approval(_) => "approval"
      case Model(_) => "model"
      case Workflow(_) => "workflow"
    }

    function Arguments(): seq<string> {
      match this
      case Mode(m) => [ModeText(m)]
      case Workflow(t) => if t.Some? then ["full", "--test", t.value] else ["full"]
      case _ => [value]
    }

    // The tokens of its line.
    function Tokens(): seq<string> { ["/" + Name()] + Arguments() }

    predicate Legal() {
      match this
      case Mode(m) => m.Inherited? ==> m.name in OBJECT_PROTOTYPE
      case Approval(v) => v in APPROVAL_MODES
      case Workflow(t) => t.Some? ==> t.value != ""
      case _ => value != ""
    }
  }

  function ModeText(m: ExecutionMode): string {
    match m
    case Attended => "attended"
    case Orchestrated => "isolated"
    case Inherited(name) => name
  }

  // The state has exactly the directive's setting.
  predicate Has(st: Slash, d: Directive) {
    match d
    case Agent(v) => st.agentType == Some(v)
    case Account(v) => st.account == Some(v)
    case Mode(m) => st.executionMode == Some(m)
    case Approval(v) => st.approvalMode == Some(v)
    case Model(v) => st.model == Some(v)
    case Workflow(t) => st.workflow && st.testCommand == t
  }

  predicate DistinctNames(ds: seq<Directive>) {
    forall i, j | 0 <= i < j < |ds| :: ds[i].Name() != ds[j].Name()
  }

  /** The state after the directives `ds`, in whatever order: exactly their settings, and their lines. */
  ghost predicate Reflects(st: Slash, ds: seq<Directive>) {
    && (forall d :: Has(st, d) <==> d in ds)
    && (!st.workflow ==> st.testCommand.None?)
    && (forall i | 0 <= i < |ds| :: ds[i].Name() in st.seen && st.seen[ds[i].Name()] == i + 1)
    && (forall n | n in st.seen :: exists d :: d in ds && d.Name() == n)
  }

  function Put(st: Slash, d: Directive, line: nat): Slash {
    var st1 := st.(seen := st.seen[d.Name() := line]);
    match d
    case Agent(v) => st1.(agentType := Some(v))
    case Account(v) => st1.(account := Some(v))
    case Mode(m) => st1.(executionMode := Some(m))
    case Approval(v) => st1.(approvalMode := Some(v))
    case Model(v) => st1.(model := Some(v))
    case Workflow(t) => st1.(testCommand := if t.Some? then t else st.testCommand, workflow := true)
  }

  lemma ModeTextIsRead(m: ExecutionMode)
    requires m.Inherited? ==> m.name in OBJECT_PROTOTYPE
    ensures ModeOf(ModeText(m)) == Some(m)
  {
  }

  lemma DirectiveIsRead(st: Slash, d: Directive, line: nat)
    requires d.Legal() && d.Name() !in st.seen
    ensures ApplyDirective(st, d.Tokens(), line) == Ok(Put(st, d, line))
  {
    var tokens := d.Tokens();
    var name := d.Name();
    assert tokens[0] == "/" + name && tokens[0][1..] == name;
    assert tokens[1..] == d.Arguments();
    assert name in DIRECTIVE_NAMES;
    var st1 := st.(seen := st.seen[name := line]);
    assert ApplyDirective(st, tokens, line) == SetDirective(st1, name, d.Arguments(), line);
    ArgumentsAreRead(st1, d, line);
  }

  lemma ArgumentsAreRead(st: Slash, d: Directive, line: nat)
    requires d.Legal() && d.Name() in st.seen && st.seen[d.Name()] == line
    ensures SetDirective(st, d.Name(), d.Arguments(), line) == Ok(Put(st, d, line))
  {
    hide ModeOf, ModeText;
    assert st.seen[d.Name() := line] == st.seen;
    match d
    case Mode(m) => ModeTextIsRead(m);
    case Workflow(t) =>
      if t.Some? {
        assert Flags(["full", "--test", t.value], 3, t) == Ok(t);
      }
    case _ =>
  }

  // A name tells which directive it is.
  lemma NameTells(d: Directive, e: Directive)
    ensures d.Name() == e.Name() <==>
      (d.Agent? && e.Agent?) || (d.Account? && e.Account?) || (d.Mode? && e.Mode?)
      || (d.Approval? && e.Approval?) || (d.Model? && e.Model?) || (d.Workflow? && e.Workflow?)
  {
    assert "agent"[0] != "model"[0] && "approval"[0] != "workflow"[0];
  }

  lemma PutHas(st: Slash, ds: seq<Directive>, d: Directive, line: nat, e: Directive)
    requires Reflects(st, ds) && (forall x | x in ds :: x.Name() != d.Name())
    ensures Has(Put(st, d, line), e) <==> e in ds || e == d
  {
    assert Has(st, e) <==> e in ds;
    assert st.workflow ==> Has(st, Workflow(st.testCommand)) && Workflow(st.testCommand) in ds;
    NameTells(d, e);
    NameTells(d, Workflow(None));
    NameTells(d, Workflow(st.testCommand));
  }

  lemma PutSeen(st: Slash, ds: seq<Directive>, d: Directive)
    requires Reflects(st, ds) && (forall x | x in ds :: x.Name() != d.Name())
    ensures var st1 := Put(st, d, |ds| + 1); var ds1 := ds + [d];
      && (!st1.workflow ==> st1.testCommand.None?)
      && (forall i | 0 <= i < |ds1| :: ds1[i].Name() in st1.seen && st1.seen[ds1[i].Name()] == i + 1)
      && (forall n | n in st1.seen :: exists e :: e in ds1 && e.Name() == n)
  {
    hide Has;
    var st1 := Put(st, d, |ds| + 1);
    assert st1.seen == st.seen[d.Name() := |ds| + 1];
    var ds1 := ds + [d];
    forall n | n in st1.seen ensures exists e :: e in ds1 && e.Name() == n {
      if n == d.Name() {
        assert d in ds1;
      } else {
        var e :| e in ds && e.Name() == n;
        assert e in ds1;
      }
    }
    forall i | 0 <= i < |ds1| ensures ds1[i].Name() in st1.seen && st1.seen[ds1[i].Name()] == i + 1 {
      if i < |ds| { assert ds1[i] == ds[i] && ds[i] in ds; }
    }
  }

  lemma PutReflects(st: Slash, ds: seq<Directive>, d: Directive)
    requires Reflects(st, ds) && (forall e | e in ds :: e.Name() != d.Name())
    ensures Reflects(Put(st, d, |ds| + 1), ds + [d])
  {
    PutSeen(st, ds, d);
    forall e: Directive ensures Has(Put(st, d, |ds| + 1), e) <==> e in ds + [d] {
      PutHas(st, ds, d, |ds| + 1, e);
    }
    hide Has, Put;
  }

  /** A line that spells the directive, with any blanks and quotes. */
  predicate Spells(line: string, d: Directive) {
    && NEWLINE !in line
    && StartsWith(Trim(line), '/')
    && |Trim(line)| <= NAME_MAX
    && Tokenize(Trim(line)) == Some(d.Tokens())
  }

  // A directive block and what follows it.
  ghost predicate SpellsBlock(lines: seq<string>, ds: seq<Directive>) {
    && |ds| <= |lines|
    && (forall i | 0 <= i < |ds| :: Spells(lines[i], ds[i]) && ds[i].Legal())
    && DistinctNames(ds)
    && (|ds| < |lines| ==> !StartsWith(Trim(lines[|ds|]), '/'))
  }

  lemma {:induction false} BlockIsRead(lines: seq<string>, ds: seq<Directive>, k: nat, st: Slash) returns (end: Slash)
    requires SpellsBlock(lines, ds) && k <= |ds| && Reflects(st, ds[..k])
    ensures Reflects(end, ds) && ParseBlock(lines, k, st) == Ok((end, |ds|))
    decreases |ds| - k
  {
    hide Trim, Tokenize, Reflects, ApplyDirective;
    if k == |ds| {
      assert ds[..k] == ds;
      end := st;
    } else {
      var d := ds[k];
      Unseen(st, ds, k);
      DirectiveIsRead(st, d, k + 1);
      PutReflects(st, ds[..k], d);
      assert ds[..k] + [d] == ds[..k + 1];
      end := BlockIsRead(lines, ds, k + 1, Put(st, d, k + 1));
      assert Spells(lines[k], d);
    }
  }

  lemma Unseen(st: Slash, ds: seq<Directive>, k: nat)
    requires DistinctNames(ds) && k < |ds| && Reflects(st, ds[..k])
    ensures ds[k].Name() !in st.seen
    ensures forall e | e in ds[..k] :: e.Name() != ds[k].Name()
  {
    forall e | e in ds[..k] ensures e.Name() != ds[k].Name() {
      var i :| 0 <= i < k && ds[..k][i] == e;
      assert ds[i] == e;
    }
  }

  lemma NothingReflects()
    ensures Reflects(NO_DIRECTIVES, [])
  {
  }

  // ---- messages ----

  // The message asks for the directive.
  predicate Asks(m: Directives, d: Directive) {
    match d
    case Agent(v) => !m.ReviewBranch? && m.agentType == Some(v)
    case Account(v) => m.RunBranch? && m.account == Some(v)
    case Mode(e) => m.RunBranch? && m.executionMode == Some(e)
    case Approval(v) => m.RunBranch? && m.approvalMode == Some(v)
    case Model(v) => !m.ReviewBranch? && m.model == Some(v)
    case Workflow(t) => m.WorkflowBranch? && t == m.testCommand
  }

  // The directive lines, a blank line, the prompt.
  function Message(lines: seq<string>, prompt: string): string {
    Join(lines + [""] + Split(prompt, NEWLINE), NEWLINE)
  }

  predicate Prompt(prompt: string) { Trimmed(prompt) && !StartsWith(prompt, '@') }

  lemma BodyOf(lines: seq<string>, prompt: string)
    requires forall l | l in lines :: NEWLINE !in l
    ensures Split(Message(lines, prompt), NEWLINE) == lines + [""] + Split(prompt, NEWLINE)
  {
    hide Split, Join;
    SplitOfJoin(lines + [""] + Split(prompt, NEWLINE), NEWLINE);
  }

  lemma PromptOfBody(prompt: string)
    requires Trimmed(prompt)
    ensures Trim(Join([""] + Split(prompt, NEWLINE), NEWLINE)) == prompt
  {
    JoinOfSplit(prompt, NEWLINE);
    JoinAppend([""], Split(prompt, NEWLINE), NEWLINE);
    var body := Join([""] + Split(prompt, NEWLINE), NEWLINE);
    assert body == [NEWLINE] + prompt;
    TrimStartSkips([NEWLINE], prompt);
    TrimmedIsFixed(prompt);
    assert TrimStart(prompt) == prompt;
  }

  // The first line of a trimmed prompt starts like the prompt.
  lemma FirstLine(prompt: string)
    requires Trimmed(prompt) && prompt != ""
    ensures Split(prompt, NEWLINE)[0] != "" && Split(prompt, NEWLINE)[0][0] == prompt[0]
    ensures var t := Trim(Split(prompt, NEWLINE)[0]); t != "" && t[0] == prompt[0]
  {
    assert prompt[0] != NEWLINE;
    TrimEndKeepsStart(Split(prompt, NEWLINE)[0]);
  }

  // How a body is concluded: the blank line ends the block, the prompt follows.
  lemma BodyConcludes(lines: seq<string>, n: nat, prompt: string)
    requires n < |lines| && lines[n..] == [""] + Split(prompt, NEWLINE) && Trimmed(prompt)
    ensures Trim(Join(lines[n..], NEWLINE)) == prompt
    ensures prompt == "" ==> FirstBody(lines, n) == |lines|
    ensures prompt != "" ==> FirstBody(lines, n) == n + 1 < |lines| && StartsWith(Trim(lines[n + 1]), prompt[0])
  {
    PromptOfBody(prompt);
    hide Join;
    assert lines[n] == lines[n..][0] == "" && Trim("") == "";
    assert lines[n + 1] == lines[n..][1] == Split(prompt, NEWLINE)[0];
    if prompt == "" {
      assert Split("", NEWLINE) == [""];
      assert |lines| == n + 2;
    } else {
      FirstLine(prompt);
    }
  }

  lemma NoMention(lines: seq<string>, n: nat, prompt: string)
    requires n < |lines| && Prompt(prompt)
    requires prompt == "" ==> FirstBody(lines, n) == |lines|
    requires prompt != "" ==> FirstBody(lines, n) == n + 1 < |lines| && StartsWith(Trim(lines[n + 1]), prompt[0])
    ensures var body := FirstBody(lines, n); body < |lines| ==> !StartsWith(Trim(lines[body]), '@')
  {
    hide Trim, FirstBody;
  }

  // Reading the message comes down to concluding its block.
  lemma MessageIsRead(lines: seq<string>, ds: seq<Directive>, prompt: string) returns (all: seq<string>, st: Slash)
    requires |lines| == |ds| && SpellsBlock(lines, ds)
    ensures all == lines + [""] + Split(prompt, NEWLINE)
    ensures Reflects(st, ds) && Parsed(Message(lines, prompt)) == Conclude(all, |ds|, st)
  {
    all := lines + [""] + Split(prompt, NEWLINE);
    BodyOf(lines, prompt);
    assert Trim("") == "";
    hide Trim, Tokenize, Reflects, Conclude, Message, Split, ParsedMention;
    assert SpellsBlock(all, ds);
    NothingReflects();
    st := BlockIsRead(all, ds, 0, NO_DIRECTIVES);
    assert !StartsWith(Trim(all[0]), '@') by {
      if |ds| > 0 { assert Spells(all[0], ds[0]); }
    }
  }

  lemma FieldsOf(m: Directives, st: Slash, ds: seq<Directive>)
    requires !m.ReviewBranch? && Reflects(st, ds) && forall d :: d in ds <==> Asks(m, d)
    ensures st.agentType == m.agentType && st.model == m.model && st.workflow == m.WorkflowBranch?
    ensures m.RunBranch? ==>
      st.account == m.account && st.executionMode == m.executionMode && st.approvalMode == m.approvalMode
    ensures m.WorkflowBranch? ==> st.testCommand == m.testCommand && Incompatible(st).None?
  {
    forall d: Directive ensures Has(st, d) <==> Asks(m, d) { }
    OptionsAgree(st, m);
    if m.WorkflowBranch? {
      assert Asks(m, Workflow(m.testCommand));
      forall n | n in st.seen ensures n !in {"mode", "approval", "account"} {
        var d :| d in ds && d.Name() == n;
      }
    } else if st.workflow {
      assert Has(st, Workflow(st.testCommand));
    }
  }

  // Two options that hold the same values are equal, field by field.
  lemma OptionsAgree(st: Slash, m: Directives)
    requires !m.ReviewBranch? && forall d: Directive :: Has(st, d) <==> Asks(m, d)
    ensures st.agentType == m.agentType && st.model == m.model
    ensures m.RunBranch? ==>
      st.account == m.account && st.executionMode == m.executionMode && st.approvalMode == m.approvalMode
  {
    if st.agentType.Some? { assert Has(st, Agent(st.agentType.value)); }
    if m.agentType.Some? { assert Asks(m, Agent(m.agentType.value)); }
    if st.model.Some? { assert Has(st, Model(st.model.value)); }
    if m.model.Some? { assert Asks(m, Model(m.model.value)); }
    if m.RunBranch? {
      if st.account.Some? { assert Has(st, Account(st.account.value)); }
      if m.account.Some? { assert Asks(m, Account(m.account.value)); }
      if st.executionMode.Some? { assert Has(st, Mode(st.executionMode.value)); }
      if m.executionMode.Some? { assert Asks(m, Mode(m.executionMode.value)); }
      if st.approvalMode.Some? { assert Has(st, Approval(st.approvalMode.value)); }
      if m.approvalMode.Some? { assert Asks(m, Approval(m.approvalMode.value)); }
    }
  }

  /**
   * Round trip of the run and workflow forms: the directives a message asks for,
   * in any order and any spelling, a blank line and the prompt parse to exactly
   * that message.  A workflow may have an empty prompt.
   */
  lemma MessageRoundTrip(m: Directives, ds: seq<Directive>, lines: seq<string>)
    requires !m.ReviewBranch? && Prompt(m.prompt) && (m.RunBranch? ==> m.prompt != "")
    requires forall d :: d in ds <==> Asks(m, d)
    requires |lines| == |ds| && SpellsBlock(lines, ds)
    ensures Parsed(Message(lines, m.prompt)) == Ok(m)
  {
    var all, st := MessageIsRead(lines, ds, m.prompt);
    assert all[|ds|..] == [""] + Split(m.prompt, NEWLINE);
    BodyConcludes(all, |ds|, m.prompt);
    FieldsOf(m, st, ds);
    hide Trim, Join, Split, Message, Reflects, FirstBody, SpellsBlock;
  }

  /** A prompt that starts with `@` after directives is refused, at its line. */
  lemma MentionAfterDirectives(ds: seq<Directive>, lines: seq<string>, prompt: string)
    requires |lines| == |ds| && SpellsBlock(lines, ds)
    requires Trimmed(prompt) && StartsWith(prompt, '@')
    ensures Parsed(Message(lines, prompt)) == Err(Error(|ds| + 2, MixedMention, None, None))
  {
    var all, st := MessageIsRead(lines, ds, prompt);
    assert all[|ds|..] == [""] + Split(prompt, NEWLINE);
    BodyConcludes(all, |ds|, prompt);
    hide Trim, Join, Split, Message, Reflects, FirstBody, SpellsBlock;
  }

  /** `/mode`, `/approval` and `/account` are refused beside `/workflow full`, naming the offending line. */
  lemma WorkflowExcludes(ds: seq<Directive>, lines: seq<string>, prompt: string, w: nat, i: nat)
    requires |lines| == |ds| && SpellsBlock(lines, ds) && Prompt(prompt)
    requires w < |ds| && ds[w].Workflow?
    requires i < |ds| && (ds[i].Mode? || ds[i].Approval? || ds[i].Account?)
    ensures exists j | 0 <= j < |ds| ::
      && (ds[j].Mode? || ds[j].Approval? || ds[j].Account?)
      && Parsed(Message(lines, prompt)) == Err(Error(j + 1, IncompatibleDirective, Some(ds[j].Name()), None))
  {
    var all, st := MessageIsRead(lines, ds, prompt);
    assert all[|ds|..] == [""] + Split(prompt, NEWLINE);
    BodyConcludes(all, |ds|, prompt);
    NoMention(all, |ds|, prompt);
    hide *;
    var j := ClashLine(st, ds, w, i);
    ConcludesClash(all, |ds|, st);
  }

  lemma ConcludesClash(lines: seq<string>, index: nat, st: Slash)
    requires index <= |lines| && st.workflow && Incompatible(st).Some? && Incompatible(st).value in st.seen
    requires var body := FirstBody(lines, index); body < |lines| ==> !StartsWith(Trim(lines[body]), '@')
    ensures Conclude(lines, index, st) ==
      Err(Error(st.seen[Incompatible(st).value], IncompatibleDirective, Incompatible(st), None))
  {
    hide Trim, Join, FirstBody, Incompatible;
  }

  lemma ClashLine(st: Slash, ds: seq<Directive>, w: nat, i: nat) returns (j: nat)
    requires Reflects(st, ds) && w < |ds| && ds[w].Workflow?
    requires i < |ds| && (ds[i].Mode? || ds[i].Approval? || ds[i].Account?)
    ensures st.workflow && j < |ds| && (ds[j].Mode? || ds[j].Approval? || ds[j].Account?)
    ensures Incompatible(st) == Some(ds[j].Name()) && ds[j].Name() in st.seen && st.seen[ds[j].Name()] == j + 1
  {
    assert Has(st, ds[w]);
    assert ds[i].Name() in st.seen;
    var clash := Incompatible(st).value;
    var d :| d in ds && d.Name() == clash;
    NameTells(d, Mode(Attended));
    NameTells(d, Approval(""));
    NameTells(d, Account(""));
    j :| 0 <= j < |ds| && ds[j] == d;
  }

  // ---- quoted spelling ----

  function QuotedWords(values: seq<string>): seq<Spaced> {
    if values == [] then [] else [Spaced(" ", [Quoted(values[0])])] + QuotedWords(values[1..])
  }

  // "/agent "codex"": the name bare, the arguments quoted.
  function PrintDirective(d: Directive): string {
    Print([Spaced("", [Bare("/" + d.Name())])] + QuotedWords(d.Arguments()))
  }

  predicate Printable(d: Directive) {
    && d.Legal()
    && (forall a | a in d.Arguments() :: QUOTE !in a && NEWLINE !in a)
    && |PrintDirective(d)| <= NAME_MAX
  }

  lemma {:induction false} QuotedLine(values: seq<string>)
    requires forall v | v in values :: QUOTE !in v && NEWLINE !in v
    ensures LegalLine(QuotedWords(values), false) && Values(QuotedWords(values)) == values
    ensures NEWLINE !in Print(QuotedWords(values))
    ensures values != [] ==> Print(QuotedWords(values)) != "" && Last(Print(QuotedWords(values))) == QUOTE
  {
    if values != [] {
      var v := values[0];
      assert v in values;
      QuotedLine(values[1..]);
      var rest := QuotedWords(values[1..]);
      var word: Word := [Quoted(v)];
      assert Value(word) == v + "" == v by { assert word[1..] == []; }
      assert PrintWord(word) == [QUOTE] + v + [QUOTE] by {
        assert word[1..] == [] && [QUOTE] + v + [QUOTE] + "" == [QUOTE] + v + [QUOTE];
      }
      assert AnyQuoted(word) by { assert word[0] in word && word[0].Quoted?; }
      assert QuotedWords(values)[1..] == rest;
      assert [v] + values[1..] == values;
      if values[1..] == [] { assert Print(rest) == ""; }
    }
  }

  function Last(s: string): char
    requires s != ""
  {
    s[|s| - 1]
  }

  lemma NameIsPlain(d: Directive)
    ensures forall c | c in "/" + d.Name() :: c != QUOTE && !IsBlank(c) && c != NEWLINE
    ensures d.Arguments() != []
  {
  }

  lemma NamedLine(name: string, rest: seq<Spaced>)
    requires name != "" && forall c | c in name :: c != QUOTE && !IsBlank(c)
    requires LegalLine(rest, false)
    ensures var line := [Spaced("", [Bare(name)])] + rest;
      LegalLine(line, true) && Values(line) == [name] + Values(rest) && Print(line) == name + Print(rest)
  {
    hide PrintWord, Value, LegalWord, Print, Values, LegalLine;
    NameWord(name);
    FirstWord(Spaced("", [Bare(name)]), rest);
    assert "" + name + Print(rest) == name + Print(rest);
  }

  lemma FirstWord(w: Spaced, rest: seq<Spaced>)
    ensures Print([w] + rest) == w.gap + PrintWord(w.word) + Print(rest)
    ensures Values([w] + rest) == [Value(w.word)] + Values(rest)
    ensures LegalLine([w] + rest, true) <==> Blank(w.gap) && LegalWord(w.word) && LegalLine(rest, false)
  {
    assert ([w] + rest)[1..] == rest;
  }

  lemma PrintedSpells(d: Directive)
    requires Printable(d)
    ensures Spells(PrintDirective(d), d)
  {
    var name := "/" + d.Name();
    NameIsPlain(d);
    QuotedLine(d.Arguments());
    hide Print, PrintWord, Value, Values, Tokenize, LegalWord, LegalLine, QuotedWords, Trim;
    var rest := QuotedWords(d.Arguments());
    NamedLine(name, rest);
    TokenizePrinted([Spaced("", [Bare(name)])] + rest);
    SlashToQuote(name, Print(rest));
  }

  lemma NameWord(name: string)
    requires name != "" && forall c | c in name :: c != QUOTE && !IsBlank(c)
    ensures var word: Word := [Bare(name)]; LegalWord(word) && Value(word) == name && PrintWord(word) == name
  {
    var word: Word := [Bare(name)];
    assert word[1..] == [] && name + "" == name;
  }

  lemma SlashToQuote(name: string, rest: string)
    requires StartsWith(name, '/') && rest != "" && Last(rest) == QUOTE
    ensures Trim(name + rest) == name + rest && StartsWith(name + rest, '/')
  {
    TrimmedIsFixed(name + rest);
  }

  lemma PrintedBlock(ds: seq<Directive>, lines: seq<string>)
    requires |lines| == |ds| && forall i | 0 <= i < |ds| :: lines[i] == PrintDirective(ds[i])
    requires forall d | d in ds :: Printable(d)
    requires forall i, j | 0 <= i < j < |ds| :: ds[i].Name() != ds[j].Name()
    ensures SpellsBlock(lines, ds)
  {
    hide PrintDirective, Spells;
    forall i | 0 <= i < |ds| ensures Spells(lines[i], ds[i]) && ds[i].Legal() {
      assert ds[i] in ds;
      PrintedSpells(ds[i]);
    }
  }

  /** Any order of quoted directives, a blank line and the prompt. */
  lemma PrintedRoundTrip(m: Directives, ds: seq<Directive>)
    requires !m.ReviewBranch? && Prompt(m.prompt) && (m.RunBranch? ==> m.prompt != "")
    requires forall d :: d in ds <==> Asks(m, d)
    requires forall i, j | 0 <= i < j < |ds| :: ds[i] != ds[j]
    requires forall d | d in ds :: Printable(d)
    ensures Parsed(Message(seq(|ds|, i requires 0 <= i < |ds| => PrintDirective(ds[i])), m.prompt)) == Ok(m)
  {
    var lines := seq(|ds|, i requires 0 <= i < |ds| => PrintDirective(ds[i]));
    forall i, j | 0 <= i < j < |ds| ensures ds[i].Name() != ds[j].Name() {
      assert ds[i] in ds && ds[j] in ds;
      NameTells(ds[i], ds[j]);
    }
    hide *;
    PrintedBlock(ds, lines);
    MessageRoundTrip(m, ds, lines);
  }

  // ---- mentions ----

  predicate AgentId(id: string) {
    id != "" && |id| <= NAME_MAX && forall c | c in id :: !IsSpace(c)
  }

  lemma {:induction false} NoSpace(s: string, rest: string)
    requires forall c | c in s :: !IsSpace(c)
    requires rest == "" || IsSpace(rest[0])
    ensures FirstSpace(s + rest) == |s|
  {
    if s == "" {
      assert s + rest == rest;
    } else {
      assert s[0] in s;
      assert (s + rest)[1..] == s[1..] + rest;
      NoSpace(s[1..], rest);
    }
  }

  /** `@id`, a newline and a trimmed prompt parse to a review of exactly that. */
  lemma MentionRoundTrip(id: string, prompt: string)
    requires AgentId(id) && Trimmed(prompt) && prompt != ""
    ensures Parsed("@" + id + [NEWLINE] + prompt) == Ok(ReviewBranch(id, prompt))
  {
    var first := "@" + id;
    assert NEWLINE !in first;
    SplitLine(first, prompt, NEWLINE);
    var lines := [first] + Split(prompt, NEWLINE);
    assert first[|first| - 1] in id;
    TrimmedIsFixed(first);
    assert first[1..] == id && id + "" == id;
    NoSpace(id, "");
    assert lines[1..] == Split(prompt, NEWLINE);
    PromptOfBody(prompt);
    hide Trim, Join, Split, FirstSpace;
    assert ParsedMention(lines) == Ok(ReviewBranch(id, prompt));
  }

  // A prefix that ends in text is not trimmed away with what follows it.
  lemma {:induction false} TrimEndAfter(prefix: string, s: string)
    requires s != "" && !IsSpace(s[0])
    ensures TrimEnd(prefix + s) == prefix + TrimEnd(s)
    decreases |s|
  {
    var t := prefix + s;
    assert t[|t| - 1] == s[|s| - 1];
    if IsSpace(s[|s| - 1]) {
      assert t[..|t| - 1] == prefix + s[..|s| - 1];
      TrimEndAfter(prefix, s[..|s| - 1]);
    }
  }

  function OneLine(id: string, text: string): string { "@" + id + " " + text }

  lemma OneLineParts(id: string, text: string)
    requires AgentId(id)
    ensures var line := OneLine(id, text);
      StartsWith(line, '@') && line[1..] == id + " " + text && FirstSpace(line[1..]) == |id| && TrimStart(line) == line
  {
    assert OneLine(id, text) == "@" + (id + " " + text);
    assert id + " " + text == id + (" " + text);
    NoSpace(id, " " + text);
  }

  // The first line of a one-line mention, as the parser sees it.
  lemma MentionLine(id: string, p: string)
    requires AgentId(id) && p != "" && !IsSpace(p[0])
    ensures Trim(OneLine(id, p)) == OneLine(id, TrimEnd(p))
  {
    OneLineParts(id, p);
    TrimEndAfter("@" + id + " ", p);
    hide IsSpace, TrimEnd, TrimStart, FirstSpace;
  }

  // The prompt of `@id text`: only the end of its first line is trimmed.
  function MentionPrompt(prompt: string): string {
    var ls := Split(prompt, NEWLINE);
    Join([TrimEnd(ls[0])] + ls[1..], NEWLINE)
  }

  lemma MentionPromptTrimmed(prompt: string)
    requires Trimmed(prompt) && prompt != ""
    ensures Trim(MentionPrompt(prompt)) == MentionPrompt(prompt) != ""
  {
    FirstLine(prompt);
    JoinOfSplit(prompt, NEWLINE);
    var ls := Split(prompt, NEWLINE);
    TrimEndKeepsStart(ls[0]);
    TrimEndEnds(ls[0]);
    if |ls| == 1 {
      assert [TrimEnd(ls[0])] + ls[1..] == [TrimEnd(ls[0])];
      TrimmedIsFixed(TrimEnd(ls[0]));
    } else {
      var tail := Join(ls[1..], NEWLINE);
      assert prompt == ls[0] + [NEWLINE] + tail;
      assert prompt[|prompt| - 1] == ([NEWLINE] + tail)[|tail|];
      assert ([TrimEnd(ls[0])] + ls[1..])[1..] == ls[1..];
      assert MentionPrompt(prompt) == TrimEnd(ls[0]) + [NEWLINE] + tail;
      TrimmedIsFixed(MentionPrompt(prompt));
    }
  }

  lemma MentionOnOneLine(id: string, prompt: string)
    requires AgentId(id) && Trimmed(prompt) && prompt != ""
    ensures Parsed(OneLine(id, prompt)) == Ok(ReviewBranch(id, MentionPrompt(prompt)))
  {
    FirstLine(prompt);
    var ls := Split(prompt, NEWLINE);
    MentionSplits(id, prompt);
    MentionLine(id, ls[0]);
    OneLineParts(id, TrimEnd(ls[0]));
    var lines := [OneLine(id, ls[0])] + ls[1..];
    assert lines[1..] == ls[1..];
    MentionPromptTrimmed(prompt);
    hide Trim, Join, Split, FirstSpace, TrimEnd, OneLine, TrimStart;
    var rest := id + " " + TrimEnd(ls[0]);
    assert rest[..|id|] == id && rest[|id| + 1..] == TrimEnd(ls[0]);
    assert ParsedMention(lines) == Ok(ReviewBranch(id, MentionPrompt(prompt)));
  }

  lemma MentionSplits(id: string, prompt: string)
    requires AgentId(id)
    ensures var ls := Split(prompt, NEWLINE);
      Split(OneLine(id, prompt), NEWLINE) == [OneLine(id, ls[0])] + ls[1..]
  {
    var ls := Split(prompt, NEWLINE);
    var prefix := "@" + id + " ";
    var lines := [prefix + ls[0]] + ls[1..];
    JoinOfSplit(prompt, NEWLINE);
    assert lines[1..] == ls[1..];
    assert Join(lines, NEWLINE) == prefix + prompt by {
      if |ls| > 1 {
        assert prefix + ls[0] + [NEWLINE] + Join(ls[1..], NEWLINE) == prefix + (ls[0] + [NEWLINE] + Join(ls[1..], NEWLINE));
      }
    }
    assert ls[0] in ls && NEWLINE !in prefix;
    hide Split, Join;
    SplitOfJoin(lines, NEWLINE);
  }

  /**
   * On one line, `@id prompt` keeps the prompt exactly when its first line does
   * not end in blanks: the mention line is trimmed as a whole.
   */
  lemma MentionKeepsPromptIff(id: string, prompt: string)
    requires AgentId(id) && Trimmed(prompt) && prompt != ""
    ensures Parsed(OneLine(id, prompt)) == Ok(ReviewBranch(id, prompt)) <==>
            TrimEnd(Split(prompt, NEWLINE)[0]) == Split(prompt, NEWLINE)[0]
  {
    MentionOnOneLine(id, prompt);
    JoinOfSplit(prompt, NEWLINE);
    var ls := Split(prompt, NEWLINE);
    assert [ls[0]] + ls[1..] == ls;
    TrimEndShortens(ls[0]);
    JoinLength(TrimEnd(ls[0]), ls[0], ls[1..]);
    hide TrimEnd, Split, Join, Parsed;
  }

  lemma {:induction false} TrimEndShortens(s: string)
    ensures TrimEnd(s) != s ==> |TrimEnd(s)| < |s|
  {
    if s != "" && IsSpace(s[|s| - 1]) { TrimEndShortens(s[..|s| - 1]); }
  }

  lemma JoinLength(a: string, b: string, rest: seq<string>)
    ensures |Join([a] + rest, NEWLINE)| - |a| == |Join([b] + rest, NEWLINE)| - |b|
  {
    assert ([a] + rest)[1..] == rest && ([b] + rest)[1..] == rest;
  }
}
