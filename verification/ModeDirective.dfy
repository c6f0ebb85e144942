/**
 * What `/mode` accepts.  Its table of modes is an object literal, so besides the
 * two modes it answers for every name an object inherits.
 */
module ModeDirective {
  import opened Common
  import opened TextLines
  import opened DirectiveTokens
  import opened MessageDirectives
  import opened DirectiveRoundTrips

  const REAL_MODES: set<string> := {"attended", "isolated"}

  // The table answers for the value.
  predicate Answered(v: string) { v in REAL_MODES || v in OBJECT_PROTOTYPE }

  /**
   * `/mode v`, given once, is accepted exactly when v is a mode or an inherited
   * name, and it sets one of the two modes exactly when v is not inherited.
   */
  lemma ModeAcceptedIff(st: Slash, v: string, line: nat)
    requires "mode" !in st.seen
    ensures var r := ApplyDirective(st, ["/mode", v], line);
      && (r.Ok? <==> Answered(v))
      && (r.Ok? ==> (r.value.executionMode in {Some(Attended), Some(Orchestrated)} <==> v !in OBJECT_PROTOTYPE))
      && (r.Ok? ==> r.value == st.(executionMode := r.value.executionMode, seen := st.seen["mode" := line]))
      && (r.Err? ==> r.error == Error(line, InvalidValue, Some("mode"), Some(v)))
  {
    var tokens := ["/mode", v];
    assert tokens[0][1..] == "mode" && tokens[1..] == [v];
  }

  // The one line of a message, spelling `/mode v` in any way.
  predicate SpellsMode(line: string, v: string) {
    NEWLINE !in line && StartsWith(Trim(line), '/') && |Trim(line)| <= NAME_MAX && Tokenize(Trim(line)) == Some(["/mode", v])
  }

  lemma AnsweredMode(v: string) returns (m: ExecutionMode)
    requires Answered(v)
    ensures ModeOf(v) == Some(m) && ModeText(m) == v && Mode(m).Legal()
    ensures m.Inherited? <==> v in OBJECT_PROTOTYPE
  {
    m := ModeOf(v).value;
  }

  lemma AnsweredMessage(line: string, v: string, m: ExecutionMode, prompt: string)
    requires SpellsMode(line, v) && ModeText(m) == v && Mode(m).Legal() && Prompt(prompt) && prompt != ""
    ensures Parsed(Message([line], prompt)) == Ok(RunBranch(prompt, None, None, Some(m), None, None))
  {
    var d := Mode(m);
    var message := RunBranch(prompt, None, None, Some(m), None, None);
    assert "/" + d.Name() == "/mode" && d.Arguments() == [v];
    assert d.Tokens() == ["/mode"] + [v] == ["/mode", v];
    forall e: Directive ensures e in [d] <==> Asks(message, e) { }
    assert SpellsBlock([line], [d]) by { assert Spells(line, d); }
    hide *;
    MessageRoundTrip(message, [d], [line]);
  }

  lemma RefusedMessage(line: string, v: string, prompt: string)
    requires SpellsMode(line, v) && !Answered(v)
    ensures Parsed(Message([line], prompt)) == Err(Error(1, InvalidValue, Some("mode"), Some(v)))
  {
    var all := [line] + [""] + Split(prompt, NEWLINE);
    BodyOf([line], prompt);
    ModeAcceptedIff(NO_DIRECTIVES, v, 1);
    hide Message, Split, Tokenize, Trim, Answered, ApplyDirective, ParsedMention;
    assert all[0] == line;
  }

  /**
   * A message of a `/mode` line, a blank line and a prompt parses exactly when
   * the value is a mode or an inherited name; it then asks for a real mode exactly
   * when the value is not inherited, and is refused at its line otherwise.
   */
  lemma ModeMessageIff(line: string, v: string, prompt: string)
    requires SpellsMode(line, v) && Prompt(prompt) && prompt != ""
    ensures var r := Parsed(Message([line], prompt));
      && (r.Ok? <==> Answered(v))
      && (r.Ok? ==> r.value.RunBranch? && r.value.prompt == prompt
                    && (r.value.executionMode in {Some(Attended), Some(Orchestrated)} <==> v !in OBJECT_PROTOTYPE))
      && (r.Err? ==> r.error == Error(1, InvalidValue, Some("mode"), Some(v)))
  {
    if Answered(v) {
      var m := AnsweredMode(v);
      hide SpellsMode, Answered, Parsed, Message, Prompt, ModeOf, ModeText, Directive.Legal;
      AnsweredMessage(line, v, m, prompt);
    } else {
      hide SpellsMode, Answered, Parsed, Message, Prompt;
      RefusedMessage(line, v, prompt);
    }
  }

  lemma PlainModeLine(v: string)
    requires v != "" && |v| <= 100 && forall c | c in v :: c != QUOTE && !IsBlank(c) && !IsSpace(c)
    ensures SpellsMode("/mode " + v, v)
  {
    var rest := [Spaced(" ", [Bare(v)])];
    var line := "/mode " + v;
    NameWord(v);
    assert LegalLine(rest, false) && Values(rest) == [v] && Print(rest) == " " + v by {
      FirstWordLater(v);
    }
    NamedLine("/mode", rest);
    assert "/mode" + (" " + v) == line;
    hide Tokenize, LegalLine, Values, Print;
    TokenizePrinted([Spaced("", [Bare("/mode")])] + rest);
    assert ["/mode"] + [v] == ["/mode", v];
    assert line[|line| - 1] == v[|v| - 1] && v[|v| - 1] in v;
    TrimmedIsFixed(line);
    assert forall c | c in "/mode " :: c != NEWLINE;
    assert IsSpace(NEWLINE);
  }

  lemma FirstWordLater(v: string)
    requires v != "" && forall c | c in v :: c != QUOTE && !IsBlank(c)
    ensures var rest := [Spaced(" ", [Bare(v)])];
      LegalLine(rest, false) && Values(rest) == [v] && Print(rest) == " " + v
  {
    NameWord(v);
    var rest := [Spaced(" ", [Bare(v)])];
    assert rest[1..] == [] && " " + v + "" == " " + v;
    assert Print([]) == "" && Values([]) == [] && LegalLine([], false);
    hide PrintWord, Value, LegalWord;
  }

  /** `/mode constructor` is accepted, and the message asks for no real mode. */
  lemma ConstructorIsAMode(prompt: string)
    requires Prompt(prompt) && prompt != ""
    ensures var r := Parsed(Message(["/mode constructor"], prompt));
      r.Ok? && r.value.RunBranch? && r.value.executionMode == Some(Inherited("constructor"))
  {
    hide *;
    ConstructorIsPlain();
    PlainModeLine("constructor");
    assert "/mode " + "constructor" == "/mode constructor";
    AnsweredMessage("/mode constructor", "constructor", Inherited("constructor"), prompt);
  }

  lemma ConstructorIsPlain()
    ensures forall c | c in "constructor" :: c != QUOTE && !IsBlank(c) && !IsSpace(c)
    ensures ModeText(Inherited("constructor")) == "constructor" && Mode(Inherited("constructor")).Legal()
  {
  }
}
