/**
 An independent statement of the labelling rule: a table with one row per
 (tool, command) pair that gets a label, and a lookup in it. The nested
 conditionals of getToolCallMessage are proved to compute exactly what the
 table says, for every input.
 */
module LabelTable {
  import opened ToolCallDisplay

  datatype Option<T> = None | Some(value: T)

  datatype Rule = Rule(tool: string, command: string, verb: string)

  const Rules: seq<Rule> := [
    Rule("str_replace_editor", "create", "Creating "),
    Rule("str_replace_editor", "str_replace", "Editing "),
    Rule("str_replace_editor", "insert", "Editing "),
    Rule("str_replace_editor", "view", "Viewing "),
    Rule("str_replace_editor", "undo_edit", "Undoing edit on "),
    Rule("file_manager", "rename", "Renaming "),
    Rule("file_manager", "delete", "Deleting ")
  ]

  predicate Matches(rule: Rule, tool: string, command: string) {
    rule.tool == tool && rule.command == command
  }

  /** The verb of the first row for this tool and command, if there is one. */
  function FindVerb(rules: seq<Rule>, tool: string, command: string): (r: Option<string>) {
    if rules == [] then None
    else if Matches(rules[0], tool, command) then Some(rules[0].verb)
    else FindVerb(rules[1..], tool, command)
  }

  /** FindVerb finds nothing exactly when no row matches, and otherwise the
      verb of the first row that matches. */
  lemma {:induction false} FindVerbFindsFirstMatch(rules: seq<Rule>, tool: string, command: string)
    ensures FindVerb(rules, tool, command).None? <==> forall i :: 0 <= i < |rules| ==> !Matches(rules[i], tool, command)
    ensures FindVerb(rules, tool, command).Some? ==>
      exists i :: 0 <= i < |rules| && Matches(rules[i], tool, command)
        && rules[i].verb == FindVerb(rules, tool, command).value
        && forall j :: 0 <= j < i ==> !Matches(rules[j], tool, command)
  {
    if rules != [] && !Matches(rules[0], tool, command) {
      FindVerbFindsFirstMatch(rules[1..], tool, command);
      assert forall i :: 1 <= i < |rules| ==> rules[i] == rules[1..][i - 1];
      if FindVerb(rules, tool, command).Some? {
        var k :| 0 <= k < |rules[1..]| && Matches(rules[1..][k], tool, command)
          && rules[1..][k].verb == FindVerb(rules, tool, command).value
          && forall j :: 0 <= j < k ==> !Matches(rules[1..][j], tool, command);
        assert Matches(rules[k + 1], tool, command);
      }
    }
  }

  /** The label according to the table: a string command with a row and a
      truthy path give the row's verb and the path, anything else the tool
      name. */
  function TableMessage(toolName: string, args: Args): (r: string) {
    var path := Get(args, "path");
    match Get(args, "command")
    case Str(c) =>
      var v := FindVerb(Rules, toolName, c);
      if Truthy(path) && v.Some? then v.value + Interpolate(path) else toolName
    case _ => toolName
  }

  /** No two rows are for the same tool and command, so the first matching
      row is the only one. */
  lemma RowsAreKeyedByToolAndCommand()
    ensures forall i, j :: 0 <= i < j < |Rules| ==>
      !(Rules[i].tool == Rules[j].tool && Rules[i].command == Rules[j].command)
  {
  }

  /** The tools in the table are exactly the two known tools. */
  lemma TableToolsAreKnownTools(tool: string)
    ensures (exists i :: 0 <= i < |Rules| && Rules[i].tool == tool) <==> IsKnownTool(tool)
  {
    if tool == StrReplaceEditor {
      assert Rules[0].tool == tool;
    } else if tool == FileManager {
      assert Rules[5].tool == tool;
    }
  }

  /** A tool and command with no row in the table get no verb. */
  lemma NoRowNoVerb(tool: string, command: string)
    requires !(tool == StrReplaceEditor && command in {"create", "str_replace", "insert", "view", "undo_edit"})
    requires !(tool == FileManager && command in {"rename", "delete"})
    ensures FindVerb(Rules, tool, command) == None
  {
    FindVerbFindsFirstMatch(Rules, tool, command);
    forall i | 0 <= i < |Rules| ensures !Matches(Rules[i], tool, command) {
    }
  }

  /** Each row's own tool and command find that row's verb. */
  lemma RowGivesVerb(i: nat)
    requires i < |Rules|
    ensures FindVerb(Rules, Rules[i].tool, Rules[i].command) == Some(Rules[i].verb)
  {
    FindVerbFindsFirstMatch(Rules, Rules[i].tool, Rules[i].command);
    RowsAreKeyedByToolAndCommand();
  }

  /** The commands a known tool labels are exactly those with a row. */
  lemma LabelledCommandsHaveRows(tool: string, command: string)
    ensures IsLabelledCommand(tool, Str(command)) <==> FindVerb(Rules, tool, command).Some?
  {
    if !IsLabelledCommand(tool, Str(command)) {
      NoRowNoVerb(tool, command);
    }
  }

  /** The table uses exactly the label words of getToolCallMessage. */
  lemma TableVerbsAreVerbs()
    ensures (set i | 0 <= i < |Rules| :: Rules[i].verb) == Verbs
  {
    var vs := set i | 0 <= i < |Rules| :: Rules[i].verb;
    assert Rules[0].verb in vs && Rules[1].verb in vs && Rules[3].verb in vs;
    assert Rules[4].verb in vs && Rules[5].verb in vs && Rules[6].verb in vs;
  }

  /** The rows of str_replace_editor give its labels. */
  lemma EditorMatchesTable(c: string, args: Args)
    requires Get(args, "command") == Str(c)
    ensures ToolCallMessage(StrReplaceEditor, args) == TableMessage(StrReplaceEditor, args)
  {
    if c !in {"create", "str_replace", "insert", "view", "undo_edit"} {
      NoRowNoVerb(StrReplaceEditor, c);
    }
  }

  /** The rows of file_manager give its labels. */
  lemma FileManagerMatchesTable(c: string, args: Args)
    requires Get(args, "command") == Str(c)
    ensures ToolCallMessage(FileManager, args) == TableMessage(FileManager, args)
  {
    if c !in {"rename", "delete"} {
      NoRowNoVerb(FileManager, c);
    }
  }

  /** getToolCallMessage agrees with the table on every input. */
  lemma MessageMatchesTable(toolName: string, args: Args)
    ensures ToolCallMessage(toolName, args) == TableMessage(toolName, args)
  {
    match Get(args, "command")
    case Str(c) =>
      if toolName == StrReplaceEditor {
        EditorMatchesTable(c, args);
      } else if toolName == FileManager {
        FileManagerMatchesTable(c, args);
      } else {
        NoRowNoVerb(toolName, c);
      }
    case _ =>
  }
}
