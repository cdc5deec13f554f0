/**
 The status line shown for one tool call in the chat: a human-readable label
 built from the tool's name and its loosely typed argument record, and whether
 the call has finished (a dot) or is still running (a spinner).
 */
module ToolCallDisplay {

  /** A value of the argument record or of the tool's result, as far as the
      labelling rule can tell them apart: `undefined` (also what a missing key
      reads as), a string, or any other value (null, a number, a boolean, an
      object), given by its truthiness and by the text that the template
      literal's ToString conversion turns it into; a value whose conversion
      throws has no such text and lies outside this model. */
  datatype JsValue =
    | Undefined
    | Str(s: string)
    | Other(truthy: bool, text: string)

  /** `Record<string, unknown>`: keys not in the map read as `undefined`. */
  type Args = map<string, JsValue>

  /** `args[key]` */
  function Get(args: Args, key: string): (r: JsValue) {
    if key in args then args[key] else Undefined
  }

  /** JavaScript truthiness: `undefined` and the empty string are falsy. */
  predicate Truthy(v: JsValue) {
    match v
    case Undefined => false
    case Str(s) => s != ""
    case Other(t, _) => t
  }

  /** What `${v}` inserts into a template literal. */
  function Interpolate(v: JsValue): (r: string) {
    match v
    case Undefined => "undefined"
    case Str(s) => s
    case Other(_, t) => t
  }

  const StrReplaceEditor: string := "str_replace_editor"
  const FileManager: string := "file_manager"

  /** The label words a recognised command can put in front of its path. */
  const Verbs: set<string> :=
    {"Creating ", "Editing ", "Viewing ", "Undoing edit on ", "Renaming ", "Deleting "}

  predicate IsKnownTool(toolName: string) {
    toolName == StrReplaceEditor || toolName == FileManager
  }

  /** The commands each known tool labels; `switch` compares with `===`, so
      only a string value can match one. */
  predicate IsLabelledCommand(toolName: string, command: JsValue) {
    if toolName == StrReplaceEditor then
      command in {Str("create"), Str("str_replace"), Str("insert"), Str("view"), Str("undo_edit")}
    else if toolName == FileManager then
      command in {Str("rename"), Str("delete")}
    else
      false
  }

  /** getToolCallMessage: the label is either the bare tool name, or one of
      the label words followed by the interpolated path, and the latter only
      for a known tool whose path is truthy. */
  function ToolCallMessage(toolName: string, args: Args): (r: string)
    ensures r == toolName
         || (IsKnownTool(toolName) && Truthy(Get(args, "path"))
             && exists verb :: verb in Verbs && r == verb + Interpolate(Get(args, "path")))
  {
    var command := Get(args, "command");
    var path := Get(args, "path");
    if toolName == StrReplaceEditor && Truthy(path) then
      match command
      case Str("create") => "Creating " + Interpolate(path)
      case Str("str_replace") => "Editing " + Interpolate(path)
      case Str("insert") => "Editing " + Interpolate(path)
      case Str("view") => "Viewing " + Interpolate(path)
      case Str("undo_edit") => "Undoing edit on " + Interpolate(path)
      case _ => toolName
    else if toolName == FileManager && Truthy(path) then
      match command
      case Str("rename") => "Renaming " + Interpolate(path)
      case Str("delete") => "Deleting " + Interpolate(path)
      case _ => toolName
    else
      toolName
  }

  /** The `toolInvocation` prop of the component. */
  datatype ToolInvocation = ToolInvocation(toolName: string, state: string, args: Args, result: JsValue)

  /** isComplete: the call is shown as finished. */
  predicate IsComplete(inv: ToolInvocation): (b: bool)
    ensures b ==> inv.state == "result" && inv.result != Undefined
    ensures inv.state == "result" && inv.result != Undefined ==> b
  {
    inv.state == "result" && inv.result != Undefined
  }

  datatype Indicator = Dot | Spinner

  /** What the component shows: an indicator and the label. */
  datatype Status = Status(indicator: Indicator, message: string)

  function StatusOf(inv: ToolInvocation): (st: Status)
    ensures st.message == ToolCallMessage(inv.toolName, inv.args)
    ensures st.indicator == Dot <==> (inv.state == "result" && inv.result != Undefined)
  {
    Status(if IsComplete(inv) then Dot else Spinner, ToolCallMessage(inv.toolName, inv.args))
  }
}
