/**
 * parseMessageDirectives (message-directives.ts): the leading directive lines
 * and the mention form of a message.
 */
module MessageDirectives {
  import opened Common
  import opened TextLines
  import opened DirectiveTokens

  const NAME_MAX: nat := 1024 // IPC_NAME_MAX
  const NEWLINE: char := '\n'

  const DIRECTIVE_NAMES: set<string> := {"agent", "account", "mode", "approval", "model", "workflow"}
  const APPROVAL_MODES: set<string> := {"read-only", "manual", "safe-auto", "full-auto"}

  // Names every object literal inherits: indexing MODE_VALUES with one of them
  // does not give undefined.
  const OBJECT_PROTOTYPE: set<string> := {
    "constructor", "hasOwnProperty", "isPrototypeOf", "propertyIsEnumerable", "toLocaleString", "toString", "valueOf",
    "__proto__", "__defineGetter__", "__defineSetter__", "__lookupGetter__", "__lookupSetter__"}

  datatype ExecutionMode = Attended | Orchestrated | Inherited(name: string)

  datatype Reason =
    | InvalidValue | DirectiveLineTooLong | UnknownDirective | DuplicateDirective | MixedMention | MissingBody
    | IncompatibleDirective

  // A structured error; its message text is left out.
  datatype Error = Error(line: nat, reason: Reason, directive: Option<string>, value: Option<string>)

  datatype Directives =
    | RunBranch(prompt: string, agentType: Option<string>, account: Option<string>, executionMode: Option<ExecutionMode>,
                approvalMode: Option<string>, model: Option<string>)
    | WorkflowBranch(prompt: string, agentType: Option<string>, model: Option<string>, testCommand: Option<string>)
    | ReviewBranch(reviewerAgentId: string, prompt: string)

  // The fields of SlashState.
  datatype Slash = Slash(
    agentType: Option<string>,
    account: Option<string>,
    executionMode: Option<ExecutionMode>,
    approvalMode: Option<string>,
    model: Option<string>,
    testCommand: Option<string>,
    workflow: bool,
    seen: map<string, nat>)

  const NO_DIRECTIVES := Slash(None, None, None, None, None, None, false, map[])

  // ---- one directive ----

  function ModeOf(value: string): Option<ExecutionMode> {
    if value == "attended" then Some(Attended)
    else if value == "isolated" then Some(Orchestrated)
    else if value in OBJECT_PROTOTYPE then Some(Inherited(value))
    else None
  }

  function Only(args: seq<string>): Option<string> {
    if |args| == 1 then Some(args[0]) else None
  }

  // The flags of `/workflow full` from position i on: the last --test wins.
  function Flags(args: seq<string>, i: nat, found: Option<string>): Result<Option<string>, string>
    decreases |args| - i
  {
    if i >= |args| then Ok(found)
    else if args[i] != "--test" || i + 1 >= |args| || args[i + 1] == "" then Err(args[i])
    else Flags(args, i + 2, Some(args[i + 1]))
  }

  function ApplyDirective(st: Slash, tokens: seq<string>, line: nat): Result<Slash, Error> {
    var name := if |tokens| > 0 && |tokens[0]| > 0 then tokens[0][1..] else "";
    var args := if |tokens| > 0 then tokens[1..] else [];
    if name !in DIRECTIVE_NAMES then Err(Error(line, UnknownDirective, Some(name), None))
    else if name in st.seen then Err(Error(line, DuplicateDirective, Some(name), None))
    else SetDirective(st.(seen := st.seen[name := line]), name, args, line)
  }

  function SetDirective(st: Slash, name: string, args: seq<string>, line: nat): Result<Slash, Error> {
    if name == "agent" || name == "account" || name == "model" then
      if |args| != 1 || args[0] == "" then Err(Error(line, InvalidValue, Some(name), None))
      else if name == "agent" then Ok(st.(agentType := Some(args[0])))
      else if name == "account" then Ok(st.(account := Some(args[0])))
      else Ok(st.(model := Some(args[0])))
    else if name == "mode" then
      var mode := if |args| == 1 then ModeOf(args[0]) else None;
      if mode.None? then Err(Error(line, InvalidValue, Some(name), Only(args))) else Ok(st.(executionMode := mode))
    else if name == "approval" then
      if |args| != 1 || args[0] !in APPROVAL_MODES then Err(Error(line, InvalidValue, Some(name), Only(args)))
      else Ok(st.(approvalMode := Some(args[0])))
    else if |args| == 0 then Err(Error(line, InvalidValue, Some(name), None))
    else if args[0] != "full" then Err(Error(line, InvalidValue, Some(name), Some(args[0])))
    else
      match Flags(args, 1, st.testCommand)
      case Err(flag) => Err(Error(line, InvalidValue, Some(name), Some(flag)))
      case Ok(found) => Ok(st.(testCommand := found, workflow := true))
  }

  /** The state the directive lines update in place. */
  class SlashState {
    var agentType: Option<string>
    var account: Option<string>
    var executionMode: Option<ExecutionMode>
    var approvalMode: Option<string>
    var model: Option<string>
    var testCommand: Option<string>
    var workflow: bool
    var seen: map<string, nat>

    constructor ()
      ensures View() == NO_DIRECTIVES
    {
      agentType, account, executionMode, approvalMode, model, testCommand := None, None, None, None, None, None;
      workflow, seen := false, map[];
    }

    ghost function View(): Slash
      reads this
    {
      Slash(agentType, account, executionMode, approvalMode, model, testCommand, workflow, seen)
    }

    method ParseSlashDirective(tokens: seq<string>, line: nat) returns (error: Option<Error>)
      modifies this
      ensures match ApplyDirective(old(View()), tokens, line)
        case Ok(st) => error == None && View() == st
        case Err(e) => error == Some(e)
    {
      var name := "";
      var args := [];
      if |tokens| > 0 {
        if |tokens[0]| > 0 {
          name := tokens[0][1..];
        }
        args := tokens[1..];
      }
      if name !in DIRECTIVE_NAMES {
        return Some(Error(line, UnknownDirective, Some(name), None));
      }
      if name in seen {
        return Some(Error(line, DuplicateDirective, Some(name), None));
      }
      seen := seen[name := line];
      error := Assign(name, args, line);
    }

    // The switch over the directive name.
    method Assign(name: string, args: seq<string>, line: nat) returns (error: Option<Error>)
      modifies this
      ensures match SetDirective(old(View()), name, args, line)
        case Ok(st) => error == None && View() == st
        case Err(e) => error == Some(e)
    {
      if name == "agent" || name == "account" || name == "model" {
        if |args| != 1 || args[0] == "" {
          return Some(Error(line, InvalidValue, Some(name), None));
        }
        if name == "agent" {
          agentType := Some(args[0]);
        } else if name == "account" {
          account := Some(args[0]);
        } else {
          model := Some(args[0]);
        }
      } else if name == "mode" {
        var mode := if |args| == 1 then ModeOf(args[0]) else None;
        if mode.None? {
          return Some(Error(line, InvalidValue, Some(name), Only(args)));
        }
        executionMode := mode;
      } else if name == "approval" {
        if |args| != 1 || args[0] !in APPROVAL_MODES {
          return Some(Error(line, InvalidValue, Some(name), Only(args)));
        }
        approvalMode := Some(args[0]);
      } else {
        error := AssignWorkflow(name, args, line);
        return;
      }
      return None;
    }

    method AssignWorkflow(name: string, args: seq<string>, line: nat) returns (error: Option<Error>)
      requires name !in {"agent", "account", "model", "mode", "approval"}
      modifies this
      ensures match SetDirective(old(View()), name, args, line)
        case Ok(st) => error == None && View() == st
        case Err(e) => error == Some(e)
    {
      if |args| == 0 {
        return Some(Error(line, InvalidValue, Some(name), None));
      }
      if args[0] != "full" {
        return Some(Error(line, InvalidValue, Some(name), Some(args[0])));
      }
      var index := 1;
      while index < |args|
        invariant 1 <= index
        invariant View() == old(View()).(testCommand := testCommand)
        invariant Flags(args, 1, old(testCommand)) == Flags(args, index, testCommand)
      {
        if args[index] != "--test" || index + 1 >= |args| || args[index + 1] == "" {
          return Some(Error(line, InvalidValue, Some(name), Some(args[index])));
        }
        testCommand := Some(args[index + 1]);
        index := index + 2;
      }
      workflow := true;
      return None;
    }
  }

  // ---- the whole message ----

  predicate StartsWith(s: string, c: char) { s != "" && s[0] == c }

  // The directive lines from `index` on; gives the state and where the block ends.
  function ParseBlock(lines: seq<string>, index: nat, st: Slash): Result<(Slash, nat), Error>
    requires index <= |lines|
    ensures ParseBlock(lines, index, st).Ok? ==> index <= ParseBlock(lines, index, st).value.1 <= |lines|
    decreases |lines| - index
  {
    if index == |lines| then Ok((st, index))
    else
      var line := Trim(lines[index]);
      if !StartsWith(line, '/') then Ok((st, index))
      else if |line| > NAME_MAX then Err(Error(index + 1, DirectiveLineTooLong, None, None))
      else
        var tokens := Tokenize(line);
        if tokens.None? || tokens.value == [] then Err(Error(index + 1, InvalidValue, None, None))
        else
          match ApplyDirective(st, tokens.value, index + 1)
          case Err(e) => Err(e)
          case Ok(st') => ParseBlock(lines, index + 1, st')
  }

  // lines.findIndex(...): the first line from `index` on that is not blank.
  function FirstBody(lines: seq<string>, index: nat): (i: nat)
    requires index <= |lines|
    ensures index <= i <= |lines|
    decreases |lines| - index
  {
    if index == |lines| || Trim(lines[index]) != "" then index else FirstBody(lines, index + 1)
  }

  function Incompatible(st: Slash): Option<string> {
    if "mode" in st.seen then Some("mode")
    else if "approval" in st.seen then Some("approval")
    else if "account" in st.seen then Some("account")
    else None
  }

  function Conclude(lines: seq<string>, index: nat, st: Slash): Result<Directives, Error>
    requires index <= |lines|
  {
    var body := FirstBody(lines, index);
    var prompt := Trim(Join(lines[index..], NEWLINE));
    if body < |lines| && StartsWith(Trim(lines[body]), '@') then Err(Error(body + 1, MixedMention, None, None))
    else if st.workflow then
      var clash := Incompatible(st);
      if clash.Some? && clash.value in st.seen then
        Err(Error(st.seen[clash.value], IncompatibleDirective, clash, None))
      else Ok(WorkflowBranch(prompt, st.agentType, st.model, st.testCommand))
    else if prompt == "" then Err(Error(if index > 1 then index else 1, MissingBody, None, None))
    else Ok(RunBranch(prompt, st.agentType, st.account, st.executionMode, st.approvalMode, st.model))
  }

  function FirstSpace(s: string): (i: nat)
    ensures i <= |s| && (forall k | 0 <= k < i :: !IsSpace(s[k])) && (i < |s| ==> IsSpace(s[i]))
  {
    if s == "" || IsSpace(s[0]) then 0 else 1 + FirstSpace(s[1..])
  }

  function ParsedMention(lines: seq<string>): Result<Directives, Error>
    requires |lines| > 0 && Trim(lines[0]) != ""
  {
    var rest := Trim(lines[0])[1..];
    var space := FirstSpace(rest);
    var agentId := rest[..space];
    var firstLineText := if space == |rest| then "" else rest[space + 1..];
    var prompt := Trim(Join([firstLineText] + lines[1..], NEWLINE));
    if agentId == "" then Err(Error(1, InvalidValue, None, None))
    else if |agentId| > NAME_MAX then Err(Error(1, DirectiveLineTooLong, None, None))
    else if prompt == "" then Err(Error(1, MissingBody, None, None))
    else Ok(ReviewBranch(agentId, prompt))
  }

  function ParsedLines(lines: seq<string>): Result<Directives, Error>
    requires |lines| > 0
  {
    if StartsWith(Trim(lines[0]), '@') then ParsedMention(lines)
    else
      match ParseBlock(lines, 0, NO_DIRECTIVES)
      case Err(e) => Err(e)
      case Ok(block) => Conclude(lines, block.1, block.0)
  }

  function Parsed(text: string): Result<Directives, Error> {
    ParsedLines(Split(text, NEWLINE))
  }

  method ParseMention(lines: seq<string>) returns (r: Result<Directives, Error>)
    requires |lines| > 0 && Trim(lines[0]) != ""
    ensures r == ParsedMention(lines)
  {
    var rest := Trim(lines[0])[1..];
    var space := FirstSpace(rest);
    var agentId := rest[..space];
    if agentId == "" {
      return Err(Error(1, InvalidValue, None, None));
    }
    if |agentId| > NAME_MAX {
      return Err(Error(1, DirectiveLineTooLong, None, None));
    }
    var firstLineText := if space == |rest| then "" else rest[space + 1..];
    var prompt := Trim(Join([firstLineText] + lines[1..], NEWLINE));
    if prompt == "" {
      return Err(Error(1, MissingBody, None, None));
    }
    return Ok(ReviewBranch(agentId, prompt));
  }

  method ParseMessageDirectives(text: string) returns (r: Result<Directives, Error>)
    ensures r == Parsed(text)
  {
    hide Split, Trim, Join, FirstBody, ApplyDirective;
    var lines := Split(text, NEWLINE);
    if StartsWith(Trim(lines[0]), '@') {
      r := ParseMention(lines);
      return;
    }
    var state := new SlashState();
    var index := 0;
    while index < |lines|
      invariant 0 <= index <= |lines| && fresh(state)
      invariant ParseBlock(lines, 0, NO_DIRECTIVES) == ParseBlock(lines, index, state.View())
    {
      var trimmed := Trim(lines[index]);
      if !StartsWith(trimmed, '/') {
        break;
      }
      if |trimmed| > NAME_MAX {
        return Err(Error(index + 1, DirectiveLineTooLong, None, None));
      }
      var tokens := TokenizeDirectiveLine(trimmed);
      if tokens.None? || tokens.value == [] {
        return Err(Error(index + 1, InvalidValue, None, None));
      }
      var error := state.ParseSlashDirective(tokens.value, index + 1);
      if error.Some? {
        return Err(error.value);
      }
      index := index + 1;
    }
    r := Finish(lines, index, state);
  }

  method Finish(lines: seq<string>, index: nat, state: SlashState) returns (r: Result<Directives, Error>)
    requires index <= |lines|
    ensures r == Conclude(lines, index, state.View())
  {
    hide Trim, Join, FirstBody;
    var body := FirstBody(lines, index);
    if body < |lines| && StartsWith(Trim(lines[body]), '@') {
      return Err(Error(body + 1, MixedMention, None, None));
    }
    var prompt := Trim(Join(lines[index..], NEWLINE));
    if state.workflow {
      var names := ["mode", "approval", "account"];
      var i := 0;
      while i < |names|
        invariant 0 <= i <= |names|
        invariant forall k | 0 <= k < i :: names[k] !in state.seen
      {
        if names[i] in state.seen {
          assert i > 0 ==> names[0] !in state.seen;
          assert i > 1 ==> names[1] !in state.seen;
          return Err(Error(state.seen[names[i]], IncompatibleDirective, Some(names[i]), None));
        }
        i := i + 1;
      }
      assert names[0] !in state.seen && names[1] !in state.seen && names[2] !in state.seen;
      return Ok(WorkflowBranch(prompt, state.agentType, state.model, state.testCommand));
    }
    if prompt == "" {
      return Err(Error(if index > 1 then index else 1, MissingBody, None, None));
    }
    return Ok(RunBranch(prompt, state.agentType, state.account, state.executionMode, state.approvalMode, state.model));
  }
}
