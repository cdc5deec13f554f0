# Tool-call status labels of the chat view

In the chat view, every tool call the agent makes is shown on a status line.
The line has a label that says what the call does to which file, and an
indicator: a dot once the call has finished, a spinner while it is running.
This project models the two rules behind that line, both in
`src/components/chat/ToolCallDisplay.tsx`:

- `getToolCallMessage(toolName, args)` builds the label. It handles two tools.
  For `str_replace_editor`, `create` becomes "Creating <path>", `str_replace`
  and `insert` become "Editing <path>", `view` becomes "Viewing <path>" and
  `undo_edit` becomes "Undoing edit on <path>". For `file_manager`, `rename`
  becomes "Renaming <path>" and `delete` becomes "Deleting <path>". In every
  other case the label is the bare tool name.
- `isComplete` is true when the state is `"result"` and a result value is
  present.

Files:

- `tool_call_display.dfy`, module `ToolCallDisplay`: the argument record, the
  label rule, the completion rule and the status line.
  - The record is `Record<string, unknown>`, modelled as `map<string, JsValue>`.
    A missing key reads as `Undefined`.
  - A `JsValue` is `undefined`, a string, or some other value. An other value
    carries two things: its JavaScript truthiness, and the text that the
    template literal's ToString conversion makes of it. The model assumes
    that conversion succeeds.
  - The `switch` compares with `===`, so only a string can match a case.
  - A path counts only if it is truthy, so an empty-string path counts as absent.
- `label_properties.dfy`, module `LabelProperties`: one lemma per labelled
  command, the fallbacks, the arguments that are ignored, the completion
  rule, and a proof that a label is unambiguous.
- `label_table.dfy`, module `LabelTable`: a second, independent statement of
  the rule. It is a table with one row per (tool, command, label word) and a
  lookup in it. `getToolCallMessage` is proved equal to it on every input.

## Model

| member | source | states |
|---|---|---|
| ToolCallDisplay.ToolCallMessage | src/components/chat/ToolCallDisplay.tsx:12-48 | the label is either the tool name, or one of the six label words followed by the interpolated path; the second form only for one of the two known tools with a truthy path |
| ToolCallDisplay.IsComplete | src/components/chat/ToolCallDisplay.tsx:53 | a call is complete exactly when its state is "result" and its result is anything other than undefined; null counts as present |
| ToolCallDisplay.StatusOf | src/components/chat/ToolCallDisplay.tsx:50-53 | the status line shows the label of the invocation's tool name and args; its indicator is the finished dot exactly when the state is "result" and a result is present |
| LabelProperties.CreateLabel | src/components/chat/ToolCallDisplay.tsx:19-22 | str_replace_editor with command create and a non-empty path p is labelled "Creating " + p |
| LabelProperties.EditLabels | src/components/chat/ToolCallDisplay.tsx:23-26 | str_replace and insert both give "Editing " + p, so the two commands share one label |
| LabelProperties.ViewAndUndoLabels | src/components/chat/ToolCallDisplay.tsx:27-30 | view gives "Viewing " + p and undo_edit gives "Undoing edit on " + p |
| LabelProperties.FileManagerLabels | src/components/chat/ToolCallDisplay.tsx:36-41 | file_manager with rename gives "Renaming " + p and with delete gives "Deleting " + p |
| LabelProperties.OnlyCommandAndPathMatter | src/components/chat/ToolCallDisplay.tsx:16-17 | two argument records that agree on command and path give the same label, whatever else they hold |
| LabelProperties.NewPathIgnored | src/components/chat/__tests__/ToolCallDisplay.test.tsx:50-57 | adding or changing new_path never changes the label |
| LabelProperties.NoPathFallsBack | src/components/chat/ToolCallDisplay.tsx:19-47 | a missing, undefined, empty or otherwise falsy path gives the tool name, for every tool and command |
| LabelProperties.EmptyArgsFallBack | src/components/chat/__tests__/ToolCallDisplay.test.tsx:90-93 | empty args give the tool name |
| LabelProperties.UnknownToolFallsBack | src/components/chat/ToolCallDisplay.tsx:47 | a tool other than str_replace_editor and file_manager is labelled by its own name, whatever the args |
| LabelProperties.ForeignCommandFallsBack | src/components/chat/ToolCallDisplay.tsx:31-43 | a command outside the tool's own set gives the tool name; this covers a missing command, a non-string command and the other tool's command |
| LabelProperties.CreateIsNotAFileManagerCommand | src/components/chat/ToolCallDisplay.tsx:37-43 | create under file_manager gives "file_manager" |
| LabelProperties.LabelledIff | src/components/chat/ToolCallDisplay.tsx:19-45 | for every tool name, the label differs from the tool name if and only if the command is one of that tool's and the path is truthy |
| LabelProperties.LabelDeterminesCall | src/components/chat/ToolCallDisplay.tsx:20-44 | two labelled calls of one tool with the same label have the same path text and the same command, up to str_replace and insert being one class |
| LabelProperties.FallbackExamples | src/components/chat/__tests__/ToolCallDisplay.test.tsx:67-93 | the four fallback unit tests: an unknown tool, a missing path, an unknown command and empty args |
| LabelProperties.CompletionRule | src/components/chat/ToolCallDisplay.tsx:53 | a complete call is in state "result"; in state "result" it is complete if and only if a result is present, and null counts as present |
| LabelProperties.PartialCallIsPending | src/components/chat/ToolCallDisplay.tsx:53-57 | a "partial-call" shows the spinner, whatever its result field holds |
| LabelProperties.ResultStateNeedsValue | src/components/chat/ToolCallDisplay.tsx:53-57 | state "result" without a result shows the spinner; with any result, null included, it shows the dot |
| LabelProperties.MessageIndependentOfProgress | src/components/chat/ToolCallDisplay.tsx:51-53 | the label does not depend on the state or the result |
| LabelTable.FindVerbFindsFirstMatch | src/components/chat/ToolCallDisplay.tsx:20-44 | a table lookup finds nothing exactly when no row matches; otherwise it finds the label word of the first matching row |
| LabelTable.RowsAreKeyedByToolAndCommand | src/components/chat/ToolCallDisplay.tsx:20-44 | no two rows of the table are for the same tool and command |
| LabelTable.RowGivesVerb | src/components/chat/ToolCallDisplay.tsx:20-44 | looking up a row's own tool and command gives that row's label word |
| LabelTable.TableToolsAreKnownTools | src/components/chat/ToolCallDisplay.tsx:19-36 | the tools named in the table are exactly str_replace_editor and file_manager |
| LabelTable.LabelledCommandsHaveRows | src/components/chat/ToolCallDisplay.tsx:20-44 | a tool labels a string command if and only if the table has a row for that tool and command |
| LabelTable.TableVerbsAreVerbs | src/components/chat/ToolCallDisplay.tsx:21-41 | the table's label words are exactly the six words the label rule uses |
| LabelTable.NoRowNoVerb | src/components/chat/ToolCallDisplay.tsx:31-43 | a tool and command outside the seven labelled pairs get no label word from the table |
| LabelTable.EditorMatchesTable | src/components/chat/ToolCallDisplay.tsx:19-34 | for str_replace_editor and a string command, the label rule and the table agree |
| LabelTable.FileManagerMatchesTable | src/components/chat/ToolCallDisplay.tsx:36-45 | for file_manager and a string command, the label rule and the table agree |
| LabelTable.MessageMatchesTable | src/components/chat/ToolCallDisplay.tsx:12-48 | getToolCallMessage equals the table-driven label for every tool name and every argument record |

## Left out

- The JSX of `ToolCallDisplay` (`src/components/chat/ToolCallDisplay.tsx:55-69`) is left out: CSS classes, the icon and the spinner animation are presentation. The model keeps only which indicator is shown and which label.
- The template literal's ToString conversion of a non-string value is not modelled. It is applied when a truthy non-string `path`, such as a number, is put into a label. The model takes the resulting text as part of the value. The TypeScript casts in lines 16-17 have no effect at run time, so the model does not rely on them.
- ToolCallDisplay.ToolCallMessage: a truthy path whose ToString conversion throws is not modelled. Examples are a Symbol, an object with a null prototype, and an object whose `toString`/`valueOf` throws or cannot be called. For these, `getToolCallMessage` throws at lines 22-41. The exception is a TypeError, or whatever the conversion method raises. The model assumes the conversion succeeds and always returns a label. A string path never throws. A path decoded from a tool call's JSON throws only if it is, or contains, an object with its own `toString` key.
- The rendering tests pass a `toolPart` prop with `type`, `input` and `output` fields (`src/components/chat/__tests__/ToolCallDisplay.test.tsx:97-105`). The component reads `toolInvocation` with `toolName`, `args` and `result`. The model follows the component's field names and does not model the tests' prop shape.
- The virtual file system, the str-replace tool and the file-manager tool (`@/lib/file-system`, `@/lib/tools/str-replace`, `@/lib/tools/file-manager`, imported at `src/app/api/chat/route.ts:1-5`) are not part of this model: they are separate modules, outside the label rule of `ToolCallDisplay` that this model covers.
- The chat route (`src/app/api/chat/route.ts`) is left out: request parsing, model streaming, database persistence and session lookup are all I/O.
- The chat context (`src/lib/contexts/chat-context.tsx`) is left out: it is React state and effects over `@ai-sdk/react`'s `useChat`.
- The provider selection (`src/lib/provider.ts`) is left out: it reads an environment variable and wraps an external SDK.
- Authentication (`src/lib/__tests__/auth.test.ts`) and the message list rendering (`src/components/chat/__tests__/MessageList.test.tsx`) are left out: they test `src/lib/auth` and `MessageList`, which are outside this component; that code is cryptography, I/O and presentation.
