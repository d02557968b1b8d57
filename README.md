# MCP Manager editor state, in Dafny

MCP Manager is a single browser form that edits Claude Desktop's
configuration file, `claude_desktop_config.json`. The file holds an
`mcpServers` object that maps a server name to the `{command, args}` that
launches it. The browser cannot touch the file, so the form takes its text
by paste or upload. The user then adds or removes servers. The form hands
back a shell command, `echo "<escaped JSON>" > <config path>`, that writes
the edited document back.

This project models the form's editor state and its handlers from
`src/App.tsx`:

- `document.dfy` (module `Document`) holds the document value, `Doc`. It
  also holds the two map updates the handlers make: an insert written as an
  object spread, and a delete written as a key-omitting destructure.
- `selection.dfy` (module `Selection`) holds the list of servers chosen for
  a terminal install, and the filter that removes one of them.
- `shell_command.dfy` (module `ShellCommand`) holds the escape. The source
  writes it as two global replacements: `"` becomes `\"`, then a newline
  becomes `\n`. The module also builds the apply command around it.
- `editor.dfy` (module `Editor`) holds the class `ConfigEditor`. Its fields
  are the component's state: `doc`, `terminalServers`, `isLoading`,
  `uploadStatus` and `isInstructionsOpen`. Each handler is a method that
  updates the fields in one step. The conditions that decide which sections
  are shown are functions that read the fields.

Three collaborators are not modelled:

- `JSON.parse` is a function `parse: string -> Option<Doc>`. `None` stands
  for a thrown parse error.
- `JSON.stringify(doc, null, 2)` is a function `serialize: Doc -> string`.
- The server catalog is the predicate `isTerminal`. It is true when the
  catalog entry carries a `terminalCommand`.

All three are constant fields of the editor, fixed when it is built.

Two facts about the source shape the model:

- The target path keeps the backslash that the template literal at
  `src/App.tsx:73` and `:293` writes (`\\ `): the command ends in
  `> ~/Library/Application\ Support/Claude/claude_desktop_config.json`.
- No rendered element references `handleFileUpload` (`src/App.tsx:27`),
  `handleSaveCommand` (`:66`) or `handleSaveAs` (`:49`), and the `Save` icon
  imported at line 5 is unused. The first two are modelled all the same;
  `handleSaveAs` is left out below. The apply command is only displayed, at
  `src/App.tsx:280-294`; `SaveCommand` is the string that display and
  `handleSaveCommand` both build.

## Model

| member | source | states |
|---|---|---|
| `Document.WithServer` | src/App.tsx:101-110 | the new map has the old keys plus `id`; `id` maps to exactly `{command: "mcp", args: [id]}`, replacing any earlier value; every other key keeps its value |
| `Document.WithoutServer` | src/App.tsx:123 | the new map has the old keys minus `id`, with the same values; it shrinks by one exactly when `id` was a key |
| `Document.WithoutAbsent` | src/App.tsx:122-128 | deleting a name that is not a key leaves the map equal to the old one, so the presence check changes nothing |
| `Document.RemoveAfterAdd` | src/App.tsx:101-127 | an insert followed by a delete of the same name equals the delete alone, for any map |
| `Document.AddThenRemoveRestores` | src/App.tsx:101-127 | for a name that was not a key, an insert followed by a delete gives back the original map |
| `Document.TopLevelKeys` | src/App.tsx:236 | the document's top-level member names always include `mcpServers`, so the count is never zero |
| `Selection.RemoveAll` | src/App.tsx:118 | `id` no longer occurs; every other element keeps its number of occurrences; the length drops by the number of occurrences of `id` |
| `Selection.RemoveAllConcat` | src/App.tsx:118 | the filter distributes over concatenation, so it keeps the remaining elements in their original order |
| `Selection.RemoveAllAbsent` | src/App.tsx:117-119 | filtering out an id that is not listed returns the same list, so the `includes` check changes nothing |
| `Selection.RemoveAllIdempotent` | src/App.tsx:118 | removing an id twice is the same as removing it once |
| `Selection.RemoveAfterAppend` | src/App.tsx:99-118 | appending `id` and then filtering it out equals filtering it out of the original list |
| `Selection.AppendThenRemoveRestores` | src/App.tsx:99-118 | for an id not previously listed, append followed by remove gives back the original list |
| `ShellCommand.ReplaceAll` | src/App.tsx:70-72 | a global replacement of `c` leaves no `c` when the replacement text has none; with a two-character replacement, the length grows by one per occurrence; other characters keep their counts |
| `ShellCommand.Escape` | src/App.tsx:70-72 | the escaped text has no raw newline; its length is the input's plus the number of `"` plus the number of newlines; characters the escape neither replaces nor inserts keep their counts |
| `ShellCommand.EscapeIsPerCharacter` | src/App.tsx:70-72 | the two successive replacements equal escaping each character in turn, in order (`"` to `\"`, newline to `\n`, anything else to itself) |
| `ShellCommand.QuotesAreEscaped` | src/App.tsx:71 | every `"` in the escaped text has a backslash immediately before it |
| `ShellCommand.EscapeConcat` | src/App.tsx:70-72 | the escape of a concatenation is the concatenation of the escapes |
| `ShellCommand.EscapeIdentity` | src/App.tsx:70-72 | text with no `"` and no newline comes out unchanged |
| `ShellCommand.EscapeNotInjective` | src/App.tsx:70-72 | a raw newline and the two characters `\n` escape to the same text, because backslashes are not escaped |
| `ShellCommand.FixedPartsPlain` | src/App.tsx:73 | the fixed text around the JSON has no raw newline, and the redirect to the config path has no `"` |
| `ShellCommand.ApplyCommand` | src/App.tsx:281-293 | the command has no raw newline; its length is the fixed text's length plus the escaped JSON's length |
| `ShellCommand.OnlyDelimitersBare` | src/App.tsx:73 | the quote that opens the echoed text has no backslash before it; every other such quote is the one that closes the echoed text |
| `Editor.ConfigEditor.constructor` | src/App.tsx:10-22 | the editor starts with `{mcpServers: {}}`, no terminal servers, not loading, status `idle`, instructions open |
| `Editor.ConfigEditor.PasteConfig` | src/App.tsx:83-93 | on a successful parse: the document is replaced wholesale, the status becomes `success` and the instructions close. On a failed parse: the status becomes `error` and the document and the instructions are unchanged. The selection and the loading flag never change |
| `Editor.ConfigEditor.StartUpload` | src/App.tsx:27-31 | with a file chosen, loading starts and the status resets to `idle`; with none, nothing changes; the document and selection are untouched |
| `Editor.ConfigEditor.FinishUpload` | src/App.tsx:33-44 | loading ends whatever the parse outcome; on success the document is replaced and the status becomes `success`; on failure the document is kept and the status becomes `error`; the instructions stay as they were |
| `Editor.ConfigEditor.AddServer` | src/App.tsx:95-113 | a terminal-type id is appended to the end of the selection, with no de-duplication, and the document is unchanged; any other id is inserted into `mcpServers` by `WithServer` and the selection is unchanged |
| `Editor.ConfigEditor.RemoveServer` | src/App.tsx:115-129 | the selection becomes its filter by `id` and `mcpServers` loses the key `id`, each unconditionally in effect; status, loading and instructions are unchanged |
| `Editor.ConfigEditor.SetInstructionsOpen` | src/App.tsx:172-177 | the checkbox sets `isInstructionsOpen` and nothing else |
| `Editor.ConfigEditor.ServerPanelShown` | src/App.tsx:236-237 | the server panel is shown exactly when the status is `success` |
| `Editor.ConfigEditor.ApplySectionShown` | src/App.tsx:257-259 | the apply section is shown only when the status is `success`, and then exactly when `mcpServers` or the terminal selection is non-empty |
| `Editor.ConfigEditor.JsonCommandShown` | src/App.tsx:277-279 | the JSON write command is shown exactly when the status is `success` and `mcpServers` is non-empty, whatever the terminal selection |
| `Editor.ConfigEditor.SaveCommand` | src/App.tsx:66-73 | the command built by `handleSaveCommand` (and displayed at 281-293) is exactly `echo "`, then the escaped serialisation of the current document, then `" > ~/Library/Application\ Support/Claude/claude_desktop_config.json`; it holds no raw newline |
| `Editor.AddThenRemove` | src/App.tsx:95-129 | for a server that was neither selected nor a key, adding it and then removing it restores both the document and the selection |

## Left out

- `JSON.parse` and `JSON.stringify` are the editor's constant fields `parse` and `serialize`, with no properties. Parse/serialise round trips are not stated, so nothing is said about the download artifact beyond its being `serialize(doc)`.
- A parsed value that is not shaped `{mcpServers: {...}}` cannot be represented. `Doc` always has `mcpServers`, so `Object.keys(jsonContent).length > 0` at `src/App.tsx:236` always holds in the model. The source accepts any JSON value.
- The truthiness test on `jsonContent.mcpServers[serverType]` at `src/App.tsx:122` is modelled as key presence. Entry values are always objects, so the two agree.
- `FileReader` runs asynchronously. `StartUpload` and `FinishUpload` are separate atomic steps, and two overlapping reads racing each other is not modelled.
- React batching and functional updaters are not modelled: each handler is one atomic update.
- `handleSaveAs` (Blob, object URL and anchor download) and the clipboard write in `handleSaveCommand` are browser side effects and are not modelled. So are the `hasCopied`/`hasCopiedSave` flags and their two-second reset timer. The command string they copy is modelled as `SaveCommand`.
- How a shell runs the command is not modelled. The escape leaves `\`, `$` and backquotes alone, so a JSON string that holds `"` (serialised as `\"`) becomes `\\"` and ends the quoted shell word early. `OnlyDelimitersBare` states the character-level property only.
- Key order is not modelled, neither in `mcpServers` nor at the top level. `JSON.stringify` at `src/App.tsx:68` and `:281` writes keys in insertion order; the spread at `:101-110` keeps an existing key in place and appends a new one, and the destructure at `:123` keeps the rest in order. `Doc` uses unordered maps, so two documents that differ only in key order are the same `Doc` and get the same `SaveCommand`, where the source prints two different commands.
- `Doc.otherFields` may hold a key `"mcpServers"`, which has no JSON counterpart (the member would be `mcpServers` itself). `TopLevelKeys` counts such a key once; no handler creates one, since only `parse` produces a `Doc`'s other members.
- The server catalog (`SERVER_CONFIGS`), its terminal install commands rendered at `src/App.tsx:298-321`, the `MCPServers` and `TerminalCommand` components and `capitalizeFirstLetter` are not part of this model. The catalog appears only as the predicate `isTerminal`. `MCPServers` can also replace the document through `onUpdate`, and that path is not modelled.
- The fixed bootstrap command at `src/App.tsx:24-25`, the JSX layout, the styling and the static text are not modelled.
