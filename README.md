# Chat store and chat shell rules, in Dafny

This project models the client-side state of a chat-style web shell: the chat
store that holds the chat list (newest first), the selected chat, the
workspaces, the selected workspace and the active mode; the edits the store
applies by chat id; and the pure rules of the components built on it — the
line-by-line rendering of a message, the bubble display rules, the composer's
send guard and attachment list, and the sidebar's new-chat sequence and recent
list.

Modules, one per source file, plus one for the JavaScript built-ins they use:

- `Types` (`src/types/index.ts`): the records as datatypes, the string-literal
  unions as enumerations with their string forms.
- `Js`: `trim`, `split`/`join` on one character, `startsWith`/`endsWith` and
  `slice` with JavaScript's negative-index and clamping rules.
- `ChatContext` (`src/contexts/ChatContext.tsx`): the class `ChatProvider`
  whose fields are the store's five pieces of state, and whose methods are the
  store's operations. Each method's new state is given by pure functions:
  `EditChats` (the `map` over the list), `EditSelected` (the mirror onto the
  selected copy), `RemoveChats` (the `filter`), `DeselectDeleted` and
  `PrependToWorkspace`. The three keyed edits are values of one datatype
  `ChatEdit`. The key invariant is `Consistent`: the selected chat, when there
  is one, is one of the list's entries. `EditKeepsConsistent` proves it is kept
  when the same edit is applied to both copies. `AddMessageClockSkew` proves it
  is lost when `addMessage`'s two clock readings differ. `StoreScenarios`
  verifies two client scenarios against the contracts.
- `ChatArea` (`src/components/layout/ChatArea.tsx`): what the message list
  shows, as view values.
- `Composer` (`src/components/layout/Composer.tsx`): the class `ComposerState`
  (input, attachments, recording flag) with the send, key and upload
  handlers, and the placeholder and quick-prompt tables.
- `Sidebar` (`src/components/layout/Sidebar.tsx`): mode labels, the class
  `SidebarState` with the new-chat sequence, the recent-chats prefix and the
  highlight rule.

Clock readings (`new Date()`) and generated ids (`Date.now()`) are method
parameters; a `Date` is an integer count of milliseconds. Each store operation
is one atomic step.

Behaviour of the store worth knowing:
- A missing chat or message id is a silent no-op: no error is raised
  (src/contexts/ChatContext.tsx:49-51, 59, 66-70, 82-91).
- `addChat` prepends to the selected workspace value only, never to the
  `workspaces` list (src/contexts/ChatContext.tsx:38-46).
- `addMessage` reads the clock separately for the list entry and for the
  selected copy (src/contexts/ChatContext.tsx:68, 76). The model keeps both
  readings as parameters.

## Model

| member | source | states |
|---|---|---|
| `Types.ParseRole` | src/types/index.ts:19 | a role string is accepted exactly when it is "user" or "assistant", and maps back to the same string |
| `Types.ParseMode` | src/types/index.ts:44 | a mode string is accepted exactly when it is one of the five mode names, and maps back to the same string |
| `Types.AllModes` | src/types/index.ts:44 | the mode list has five entries, none repeated |
| `Types.AllModesComplete` | src/types/index.ts:44 | every `ChatMode` value is in the five-entry list: the union has no sixth value |
| `Types.ParseSourceType` | src/types/index.ts:31 | a source type is exactly one of "document", "web", "code" |
| `Types.ParseUploadStatus` | src/types/index.ts:60 | an upload status is exactly one of "uploading", "processing", "ready", "error" |
| `Types.NamesRoundTrip` | src/types/index.ts:19-60 | every union value survives the trip to its string and back |
| `Js.Trim` | src/components/layout/Composer.tsx:28 | the trimmed input is no longer than the input, and starts and ends with non-whitespace when non-empty |
| `Js.TrimIsInfix` | src/components/layout/Composer.tsx:28 | `trim` keeps an infix of the input and cuts only whitespace from both ends |
| `Js.TrimEmptyIff` | src/components/layout/Composer.tsx:28 | the trimmed input is empty (falsy) exactly when the input is all whitespace |
| `Js.Split` | src/components/layout/ChatArea.tsx:190 | `split('\n')` gives one segment more than there are newlines, none holding a newline |
| `Js.JoinSplit` | src/components/layout/ChatArea.tsx:190 | the segments joined back with the newline give the original content |
| `Js.SplitJoin` | src/components/layout/ChatArea.tsx:190 | splitting newline-free lines joined by newlines gives the lines back |
| `Js.SliceDropsEnds` | src/components/layout/ChatArea.tsx:199-202 | `slice(k, -k)` drops k characters from each end, and is empty when the line is 2k characters long or shorter |
| `Js.SlicePrefix` | src/components/layout/Sidebar.tsx:62 | `slice(0, n)` is the prefix of length min(n, length) |
| `ChatContext.MergeChatLaws` | src/contexts/ChatContext.tsx:50 | `{ ...chat, ...updates }` is idempotent, an empty patch changes nothing, and two merges are one merge of the combined patch |
| `ChatContext.MergeMessageFields` | src/contexts/ChatContext.tsx:87 | a message merge changes exactly the properties the patch names |
| `ChatContext.EditMessages` | src/contexts/ChatContext.tsx:86-88 | the messages with the id are merged, the others kept, count and order unchanged |
| `ChatContext.EditChats` | src/contexts/ChatContext.tsx:49-51 | every chat with the id gets the edit, every other chat is kept, length and order unchanged |
| `ChatContext.EditSelected` | src/contexts/ChatContext.tsx:53-55 | the selected copy changes only when its id matches, and stays present or absent |
| `ChatContext.RemoveChats` | src/contexts/ChatContext.tsx:59 | no chat with the deleted id is left, and the list does not grow |
| `ChatContext.RemoveChatsMembers` | src/contexts/ChatContext.tsx:59 | a chat remains exactly when it was in the list and has another id |
| `ChatContext.DeselectDeleted` | src/contexts/ChatContext.tsx:60-62 | the selection is cleared exactly when the deleted id was selected, and otherwise kept |
| `ChatContext.PrependToWorkspace` | src/contexts/ChatContext.tsx:40-45 | with a workspace selected, the chat goes first in its chats and nothing else of it changes; with none, none stays |
| `ChatContext.EditMissingIdIsNoOp` | src/contexts/ChatContext.tsx:48-51 | `updateChat`, `addMessage` and `updateMessage` on an id no chat has leave the list unchanged |
| `ChatContext.RemoveMissingIdIsNoOp` | src/contexts/ChatContext.tsx:59 | deleting an id no chat has leaves the list unchanged |
| `ChatContext.RemoveChatsKeepsOrder` | src/contexts/ChatContext.tsx:59 | the filter distributes over concatenation, so the remaining chats keep their relative order |
| `ChatContext.RemoveChatsLength` | src/contexts/ChatContext.tsx:59 | deletion removes exactly as many chats as carry the id |
| `ChatContext.AppendMessageAt` | src/contexts/ChatContext.tsx:66-70 | the matching chat gets the message last, one more message and `updatedAt` set, nothing else; other chats are untouched |
| `ChatContext.EditMessageAt` | src/contexts/ChatContext.tsx:82-91 | `updateMessage` merges only messages with the id in chats with the id, keeping every chat's message count and order and every other property of every chat, including chats with no messages |
| `ChatContext.AppendAllInOrder` | src/contexts/ChatContext.tsx:65-70 | a run of `addMessage` calls on one chat, each with its own clock reading, leaves exactly those messages appended in call order and `updatedAt` at the last call's reading, with its id, title, mode and `createdAt` unchanged; other chats unchanged |
| `ChatContext.SelectedIsTheEntry` | src/contexts/ChatContext.tsx:53-55 | with unique ids, a consistent selected copy equals the list entry with its id |
| `ChatContext.EditKeepsConsistent` | src/contexts/ChatContext.tsx:48-101 | applying the same edit to the list and to the selected copy keeps the selected copy one of the list's entries |
| `ChatContext.RemoveKeepsConsistent` | src/contexts/ChatContext.tsx:58-63 | deleting keeps the selection consistent |
| `ChatContext.PrependKeepsConsistent` | src/contexts/ChatContext.tsx:38-39 | adding a chat keeps the selection consistent |
| `ChatContext.AddMessageClockSkew` | src/contexts/ChatContext.tsx:65-79 | when the two `new Date()` readings of `addMessage` differ, the selected copy is no longer any list entry |
| `ChatContext.EditKeepsUniqueIds` | src/contexts/ChatContext.tsx:48-101 | edits that do not rename the chat keep chat ids unique |
| `ChatContext.RemoveKeepsUniqueIds` | src/contexts/ChatContext.tsx:59 | deleting keeps chat ids unique |
| `ChatContext.PrependKeepsUniqueIds` | src/contexts/ChatContext.tsx:39 | adding a chat with a fresh id keeps ids unique |
| `ChatContext.ChatProvider.constructor` | src/contexts/ChatContext.tsx:23-36 | initial state: no chats, nothing selected, the one "default" workspace, also selected, and mode aptitude |
| `ChatContext.ChatProvider.SetCurrentChat` | src/contexts/ChatContext.tsx:24 | the selection becomes the given chat or none |
| `ChatContext.ChatProvider.SetCurrentWorkspace` | src/contexts/ChatContext.tsx:35 | the selected workspace becomes the given one or none |
| `ChatContext.ChatProvider.SetMode` | src/contexts/ChatContext.tsx:36 | the mode becomes the given one |
| `ChatContext.ChatProvider.AddChat` | src/contexts/ChatContext.tsx:38-46 | the chat heads the list with the old list after it; the selected workspace gets it first; `workspaces` is not written; consistency kept |
| `ChatContext.ChatProvider.UpdateChat` | src/contexts/ChatContext.tsx:48-56 | the list and the matching selected copy get the same merge; consistency kept |
| `ChatContext.ChatProvider.DeleteChat` | src/contexts/ChatContext.tsx:58-63 | the list is filtered, and the selection is cleared iff it had the id; consistency kept |
| `ChatContext.ChatProvider.AddMessage` | src/contexts/ChatContext.tsx:65-79 | the list entry and the matching selected copy get the message appended, each with its own clock reading; consistency kept when the readings agree |
| `ChatContext.ChatProvider.UpdateMessage` | src/contexts/ChatContext.tsx:81-101 | the list entry and the matching selected copy get the same message merge; consistency kept |
| `ChatArea.MessageContent` | src/components/layout/ChatArea.tsx:188-207 | one block per newline-separated line, in line order |
| `ChatArea.CodeFenceFirst` | src/components/layout/ChatArea.tsx:195-197 | a line starting with three backticks becomes the "Code block" label whatever follows |
| `ChatArea.ClassifyLineCases` | src/components/layout/ChatArea.tsx:194-205 | bold iff a non-fence line starts and ends with `**`; italic iff it starts and ends with `*` but is not bold; a paragraph holds the line verbatim |
| `ChatArea.ClassifyLineText` | src/components/layout/ChatArea.tsx:198-203 | the shown text plus its markers gives the line back, and framed lines too short for both markers show nothing |
| `ChatArea.MessageContentOfLines` | src/components/layout/ChatArea.tsx:190-194 | content built from lines renders one block per line, each line classified on its own |
| `ChatArea.ViewCodeBlock` | src/components/layout/ChatArea.tsx:214-240 | the run button iff runnable; the output iff it is a non-empty string |
| `ChatArea.CodeBlockErrorNotShown` | src/components/layout/ChatArea.tsx:214-240 | a code block's error and id never change what is shown |
| `ChatArea.SourceTitles` | src/components/layout/ChatArea.tsx:164-171 | one title per source, in order |
| `ChatArea.ViewMessage` | src/components/layout/ChatArea.tsx:93-182 | "Thinking" iff a streaming non-user message; actions iff non-user and not streaming; sources iff present and non-empty; each code block shown as its `ViewCodeBlock`, in order |
| `ChatArea.ThinkingOrActions` | src/components/layout/ChatArea.tsx:126-143 | an assistant bubble shows exactly one of the thinking indicator and the action bar; a user bubble shows its text and no actions |
| `ChatArea.ViewChatArea` | src/components/layout/ChatArea.tsx:34-85 | the welcome screen iff no chat is selected; otherwise its title, mode and one bubble per message in order |
| `Composer.CanSendIff` | src/components/layout/Composer.tsx:28 | a send goes ahead iff the input has a non-whitespace character and a chat is selected |
| `Composer.SendDisabledIff` | src/components/layout/Composer.tsx:176 | the button is disabled iff the input is blank; an enabled button with no chat selected sends nothing |
| `Composer.RemoveAt` | src/components/layout/Composer.tsx:72-74 | exactly the element at the index is removed, the others in order; an index out of range changes nothing |
| `Composer.Placeholder` | src/components/layout/Composer.tsx:76-89 | the generic placeholder is shown iff the mode is none of the four named ones |
| `Composer.QuickPrompts` | src/components/layout/Composer.tsx:201-234 | three prompts for every mode string; the default three exactly for strings other than the four named modes |
| `Composer.QuickPromptsPerMode` | src/components/layout/Composer.tsx:201-234 | "custom" gets the default prompts and different modes get different prompts |
| `Composer.ComposerState.constructor` | src/components/layout/Composer.tsx:22-24 | empty input, no attachments, not recording |
| `Composer.ComposerState.SetInput` | src/components/layout/Composer.tsx:154 | the input becomes the typed or picked text |
| `Composer.ComposerState.ToggleRecording` | src/components/layout/Composer.tsx:143 | the recording flag flips |
| `Composer.ComposerState.Send` | src/components/layout/Composer.tsx:27-38 | blank input or no chat: nothing changes; otherwise a user message with the trimmed text goes last in the selected chat's list entry and selected copy, and the input is cleared |
| `Composer.ComposerState.KeyDown` | src/components/layout/Composer.tsx:60-65 | Enter without Shift sends as the button does, with the same new composer and store state as `Send` and the selection kept consistent; any other key, blank input or no selection changes nothing |
| `Composer.ComposerState.HandleFileUpload` | src/components/layout/Composer.tsx:67-70 | the picked files follow the existing attachments, both in order |
| `Composer.ComposerState.RemoveAttachment` | src/components/layout/Composer.tsx:72-74 | the attachments become the list without the element at the index |
| `Sidebar.ModeLabel` | src/components/layout/Sidebar.tsx:26-32 | every mode has a non-empty label: the lookup by `chat.mode` is total |
| `Sidebar.DropdownLabels` | src/components/layout/Sidebar.tsx:102-114 | the dropdown shows one label per mode, in the table's order |
| `Sidebar.NewChatTitleDistinct` | src/components/layout/Sidebar.tsx:50 | a new chat's title reads "New … Chat" and tells the modes apart |
| `Sidebar.NewChat` | src/components/layout/Sidebar.tsx:47-55 | the new chat has no messages, the chosen mode and id, the mode's title, and `createdAt` and `updatedAt` from the two clock readings |
| `Sidebar.RecentChats` | src/components/layout/Sidebar.tsx:62 | the recent list is the prefix of length min(10, number of chats) |
| `Sidebar.AtMostOneActive` | src/components/layout/Sidebar.tsx:156-159 | with unique ids at most one recent chat is highlighted |
| `Sidebar.SidebarState.constructor` | src/components/layout/Sidebar.tsx:45 | the mode dropdown starts closed |
| `Sidebar.SidebarState.ToggleModeDropdown` | src/components/layout/Sidebar.tsx:90 | the dropdown flag flips |
| `Sidebar.SidebarState.HandleNewChat` | src/components/layout/Sidebar.tsx:47-60 | the new chat heads the list and the recent list, is selected and highlighted, the mode follows it, the workspaces list is untouched, and the dropdown closes |
| `Sidebar.SidebarState.SelectChat` | src/components/layout/Sidebar.tsx:164 | clicking a recent chat selects and highlights it, keeping the selection consistent |

## Left out

- React plumbing: creating the context and `useChat`'s provider check, effects, refs and scrolling. Each store operation is one atomic step, so stale `useCallback` closures and batched updates are not modelled.
- The simulated assistant reply that `handleSend` schedules with `setTimeout`, and its empty "stop streaming" step: timers are not modelled.
- Clock and id generation: `Date.now()` and `new Date()` are parameters. `Composer.ComposerState.Send` passes one `now` for the message timestamp and for both of the store's clock readings.
- `ChatContext.ChatProvider.AddMessage`: the list's `map` calls `new Date()` once per chat whose id matches (src/contexts/ChatContext.tsx:68). With duplicate chat ids those entries can get different `updatedAt` values; the model gives every matching entry the one reading `listNow`.
- `src/hooks/useKeyboardShortcuts.ts` is not part of this model. Its Ctrl+N path repeats the new-chat sequence, but its title uses the raw mode name ("New coding Chat").
- `ContextPanel.tsx`, `Header.tsx`, `App.tsx`, `keyboard-shortcuts.tsx` and `mode-switcher.tsx` are not part of this model: they are layout, icons and constant tables.
- The `User` and `ModeConfig` records are declared but no operation uses them.
- `Js.IsWhitespace` works on code points, where JavaScript strings use UTF-16 code units. The whitespace set is the one `trim` uses.
- The store does not reject duplicate chat ids, and the model does not either. Lemmas that need unique ids take them as a precondition.
- `Sidebar.SidebarState.SelectChat`: requires the chat to be in the recent list, because the sidebar only renders buttons for those chats.
