/**
 What getToolCallMessage and isComplete promise: one lemma per labelled
 command, the fallbacks to the bare tool name, the arguments that never
 matter, the completion rule, and that a label names its verb and path
 unambiguously.
 */
module LabelProperties {
  import opened ToolCallDisplay

  /** The args `{command, path}` for a string command and a string path. */
  function CommandArgs(command: string, path: string): (r: Args) {
    map["command" := Str(command), "path" := Str(path)]
  }

  lemma CreateLabel(path: string)
    requires path != ""
    ensures ToolCallMessage(StrReplaceEditor, CommandArgs("create", path)) == "Creating " + path
  {
  }

  /** `str_replace` and `insert` share the label "Editing <path>". */
  lemma EditLabels(path: string)
    requires path != ""
    ensures ToolCallMessage(StrReplaceEditor, CommandArgs("str_replace", path)) == "Editing " + path
    ensures ToolCallMessage(StrReplaceEditor, CommandArgs("insert", path)) == "Editing " + path
  {
  }

  lemma ViewAndUndoLabels(path: string)
    requires path != ""
    ensures ToolCallMessage(StrReplaceEditor, CommandArgs("view", path)) == "Viewing " + path
    ensures ToolCallMessage(StrReplaceEditor, CommandArgs("undo_edit", path)) == "Undoing edit on " + path
  {
  }

  lemma FileManagerLabels(path: string)
    requires path != ""
    ensures ToolCallMessage(FileManager, CommandArgs("rename", path)) == "Renaming " + path
    ensures ToolCallMessage(FileManager, CommandArgs("delete", path)) == "Deleting " + path
  {
  }

  /** Only the `command` and `path` entries of the record are read. */
  lemma OnlyCommandAndPathMatter(toolName: string, a: Args, b: Args)
    requires Get(a, "command") == Get(b, "command")
    requires Get(a, "path") == Get(b, "path")
    ensures ToolCallMessage(toolName, a) == ToolCallMessage(toolName, b)
  {
  }

  /** In particular `new_path` (the rename target) never shows in the label. */
  lemma NewPathIgnored(toolName: string, args: Args, newPath: JsValue)
    ensures ToolCallMessage(toolName, args["new_path" := newPath]) == ToolCallMessage(toolName, args)
  {
  }

  /** A missing, undefined or empty path gives the tool name, whatever the
      command; so do empty args. */
  lemma NoPathFallsBack(toolName: string, args: Args)
    requires !Truthy(Get(args, "path"))
    ensures ToolCallMessage(toolName, args) == toolName
  {
  }

  lemma EmptyArgsFallBack(toolName: string)
    ensures ToolCallMessage(toolName, map[]) == toolName
  {
  }

  /** A tool other than the two known ones is labelled by its name. */
  lemma UnknownToolFallsBack(toolName: string, args: Args)
    requires !IsKnownTool(toolName)
    ensures ToolCallMessage(toolName, args) == toolName
  {
  }

  /** A command outside the tool's own set (none at all, a non-string value,
      the other tool's command) gives the tool name. */
  lemma ForeignCommandFallsBack(toolName: string, args: Args)
    requires !IsLabelledCommand(toolName, Get(args, "command"))
    ensures ToolCallMessage(toolName, args) == toolName
  {
  }

  lemma CreateIsNotAFileManagerCommand(path: string)
    ensures ToolCallMessage(FileManager, CommandArgs("create", path)) == FileManager
  {
  }

  /** Every label word differs from both known tool names. */
  lemma VerbIsNotAToolNamePrefix(verb: string, rest: string, toolName: string)
    requires verb in Verbs
    requires IsKnownTool(toolName)
    ensures verb + rest != toolName
  {
    var s := verb + rest;
    assert s[0] == verb[0];
    assert toolName[0] in {'s', 'f'};
  }

  /** For every tool, the label differs from the tool name exactly when the
      command is one of that tool's and the path is truthy. */
  lemma LabelledIff(toolName: string, args: Args)
    ensures ToolCallMessage(toolName, args) != toolName
        <==> IsLabelledCommand(toolName, Get(args, "command")) && Truthy(Get(args, "path"))
  {
    var r := ToolCallMessage(toolName, args);
    if IsLabelledCommand(toolName, Get(args, "command")) && Truthy(Get(args, "path")) {
      var verb :| verb in Verbs && r == verb + Interpolate(Get(args, "path"));
      VerbIsNotAToolNamePrefix(verb, Interpolate(Get(args, "path")), toolName);
    }
  }

  /** The class of a labelled command: `str_replace` and `insert` are one. */
  function VerbClass(command: JsValue): (r: string) {
    match command
    case Str("insert") => "str_replace"
    case Str(c) => c
    case _ => ""
  }

  /** A label word is determined by its first letter. */
  lemma VerbDeterminedByFirstLetter(v: string, w: string)
    requires v in Verbs && w in Verbs && v[0] == w[0]
    ensures v == w
  {
  }

  /** A label of a known tool that is not the fallback names its command's
      class and its path: two such calls with the same label agree on both. */
  lemma LabelDeterminesCall(toolName: string, a: Args, b: Args)
    requires IsLabelledCommand(toolName, Get(a, "command")) && Truthy(Get(a, "path"))
    requires IsLabelledCommand(toolName, Get(b, "command")) && Truthy(Get(b, "path"))
    requires ToolCallMessage(toolName, a) == ToolCallMessage(toolName, b)
    ensures VerbClass(Get(a, "command")) == VerbClass(Get(b, "command"))
    ensures Interpolate(Get(a, "path")) == Interpolate(Get(b, "path"))
  {
    var r := ToolCallMessage(toolName, a);
    var pa, pb := Interpolate(Get(a, "path")), Interpolate(Get(b, "path"));
    LabelledIff(toolName, a);
    LabelledIff(toolName, b);
    var v :| v in Verbs && r == v + pa;
    var w :| w in Verbs && r == w + pb;
    assert r[0] == v[0] && r[0] == w[0];
    VerbDeterminedByFirstLetter(v, w);
    assert pa == r[|v|..] == pb;
  }

  /** The unit tests of the fallbacks to the tool name. */
  lemma FallbackExamples()
    ensures ToolCallMessage("unknown_tool", CommandArgs("something", "/file.txt")) == "unknown_tool"
    ensures ToolCallMessage(StrReplaceEditor, map["command" := Str("create")]) == StrReplaceEditor
    ensures ToolCallMessage(StrReplaceEditor, CommandArgs("unknown_command", "/file.txt")) == StrReplaceEditor
    ensures ToolCallMessage(StrReplaceEditor, map[]) == StrReplaceEditor
  {
  }

  /** isComplete holds exactly for the state "result" with a result value
      present; null counts as present. */
  lemma CompletionRule(inv: ToolInvocation)
    ensures IsComplete(inv) ==> inv.state == "result"
    ensures inv.state == "result" ==> (IsComplete(inv) <==> inv.result != Undefined)
  {
  }

  /** A partial call shows the spinner, whatever it carries. */
  lemma PartialCallIsPending(toolName: string, args: Args, result: JsValue)
    ensures StatusOf(ToolInvocation(toolName, "partial-call", args, result)).indicator == Spinner
  {
  }

  /** A "result" state without a result value shows the spinner; with one,
      even null, the dot. */
  lemma ResultStateNeedsValue(toolName: string, args: Args, result: JsValue)
    ensures StatusOf(ToolInvocation(toolName, "result", args, Undefined)).indicator == Spinner
    ensures result != Undefined ==> StatusOf(ToolInvocation(toolName, "result", args, result)).indicator == Dot
  {
  }

  /** The label does not depend on the call's progress. */
  lemma MessageIndependentOfProgress(inv: ToolInvocation, state: string, result: JsValue)
    ensures StatusOf(inv.(state := state, result := result)).message == StatusOf(inv).message
  {
  }
}
