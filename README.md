# Figlia-Chat conversation core, modelled in Dafny

This project models the logic core of a browser chat client. Three parts are covered:

- **The conversation registry.** This is the chat provider in `app/context/chat-context.tsx`. It holds an ordered list of chats and a nullable current-chat id. Its operations are create, select, delete, append-message, the `currentChat` lookup and restore at startup.
- **The streaming accumulator.** This is the `useChatStream` hook. It appends the user's message and an empty bot placeholder. It then folds each received chunk into a running text, pushes every running text to `updateLastBotMessage`, and marks a user abort with a fixed stop marker.
- **Two pieces of sidebar logic.** These are the 30-character preview under each chat and the rename dialog.

Files:

- `wrappers.dfy`: `Option`, which stands for `T | null`.
- `chat_context.dfy` (module `ChatContext`): `Message`, `Chat` and `Registry`. Each provider operation is a pure function on `Registry`. The lemmas state order, current-id validity and "nothing else changes". Class `ChatStore` holds the provider's two state cells `chats` and `currentChatId`. Each of its methods states its new state as the matching function of its old state.
- `chat_stream.dfy` (module `ChatStream`): class `StreamHook` has the fields `isLoading`, `abortController` and `trace`. `trace` records, in order, every call the hook makes on the provider and every loading-flag change. The response is `NoBody`, or `Body(chunks, end)`: the already-decoded chunks the reader delivers, then how the reader ends (`Done`, or `Thrown(name)`). As in the hook, an abort is recognised by the error name `"AbortError"`. `Replay` plays the recorded provider calls against a `Registry`, which links the hook to the registry.
- `chat_sidebar.dfy` (module `ChatSidebar`): `Preview` and class `Sidebar`, which holds the rename dialog's state and records the calls the sidebar makes that the provider file does not define (`renameChat`, `clearAllChats`).

Ids, clock values and the locale date in a new chat's title are parameters. JavaScript truthiness is written out:

- `!currentChatId` holds for null and for the empty id.
- The rename dialog shows only for a non-empty `renameId`.
- A saved value of `""` counts as "nothing saved".

In these places the model follows the code, which a reader may not expect:

- A new chat holds one greeting message: bot, id "1", text "Hello! How can I help you today?". It is not empty.
- `selectChat` sets the current id without a membership check, so the current id can dangle. `currentChat` is then null, and `sendMessage`'s two messages are dropped (`TurnLostOnDanglingId`).
- A saved empty list leaves the current id as it was. A parse failure changes nothing, so no greeting chat is seeded.
- The hook itself sends any text. The trimmed-emptiness guard lives in the input component.

## Model

| member | source | states |
|---|---|---|
| ChatContext.FindChat | app/context/chat-context.tsx:126 | The lookup is empty exactly when no chat has the current id (a null current id matches none); otherwise it is the first chat with that id |
| ChatContext.CreateChat | app/context/chat-context.tsx:76-92 | A fresh chat has the given id, a "Chat " title, equal creation/update stamps and exactly one message: a bot message with id "1" and the greeting text |
| ChatContext.WithNewChat | app/context/chat-context.tsx:94-98 | The new chat is at index 0, all previous chats follow in their original order, and it becomes current |
| ChatContext.Selected | app/context/chat-context.tsx:100-102 | Selecting leaves the chats as they are and makes the id current; the current id then names a chat exactly when some chat has that id |
| ChatContext.WithoutChat | app/context/chat-context.tsx:105 | Deletion keeps exactly the chats whose id differs (no chat with the id remains) and never grows the list |
| ChatContext.WithoutConcat | app/context/chat-context.tsx:105 | The filter distributes over concatenation, so the surviving chats keep their relative order |
| ChatContext.WithoutAbsent | app/context/chat-context.tsx:105 | Deleting an id no chat carries leaves the list unchanged |
| ChatContext.WithoutFirst | app/context/chat-context.tsx:105-108 | The first remaining chat is the first chat of the old list whose id differs |
| ChatContext.WithoutDistinct | app/context/chat-context.tsx:105 | Deletion keeps ids distinct |
| ChatContext.Deleted | app/context/chat-context.tsx:104-110 | After deletion no chat has the id and the current id is not it; a non-current delete keeps the current id; deleting the current chat leaves a current id that names a remaining chat, or null exactly when no chat remains |
| ChatContext.DeleteOtherKeepsCurrent | app/context/chat-context.tsx:104-110 | Deleting a chat that is not current leaves the current id unchanged |
| ChatContext.DeleteCurrentReassigns | app/context/chat-context.tsx:106-109 | Deleting the current chat moves the current id to the first chat with another id, and to null exactly when every chat had the deleted id |
| ChatContext.DeletePreserves | app/context/chat-context.tsx:104-110 | With distinct ids and a null-or-present current id, deletion keeps both |
| ChatContext.CreatePreserves | app/context/chat-context.tsx:94-98 | Creating with a fresh id keeps ids distinct and the current id present, and the lookup then returns the new chat |
| ChatContext.SelectThenLookup | app/context/chat-context.tsx:100-102 | Selecting leaves the chats alone; the lookup is empty, and the current id dangles, exactly when no chat has the id |
| ChatContext.WithMessage | app/context/chat-context.tsx:112-124 | Appending keeps the count, order and ids; every chat with the current id gains the message at the end and a new update stamp, every other chat is unchanged |
| ChatContext.Restored | app/context/chat-context.tsx:40-66 | Restore either changes nothing, seeds exactly one greeting chat under the new id as current, or adopts the parsed list; whenever it installs a non-empty new list, the current id names one of its chats |
| ChatContext.AddPreserves | app/context/chat-context.tsx:112-124 | Appending keeps ids distinct and the current id present |
| ChatContext.AddWithoutCurrentIsNoop | app/context/chat-context.tsx:112-124 | With a null current id or no chat under it, appending changes nothing |
| ChatContext.AddChangesOnlyCurrent | app/context/chat-context.tsx:112-124 | With distinct ids and a valid current id, exactly one chat changes, and its messages gain the message at the end |
| ChatContext.FindAfterAdd | app/context/chat-context.tsx:112-126 | After an append, the current chat is the old current chat with the message appended, or still none |
| ChatContext.RestoreOutcomes | app/context/chat-context.tsx:40-66 | Nothing saved gives exactly one greeting chat, which is current; a non-empty saved list is restored with its first chat current; a parse failure changes nothing |
| ChatContext.RestorePreserves | app/context/chat-context.tsx:40-66 | Restoring distinct saved chats, or seeding, gives distinct ids and a null-or-present current id |
| ChatContext.ChatStore.constructor | app/context/chat-context.tsx:36-37 | The provider starts with no chats and a null current id |
| ChatContext.ChatStore.CurrentChat | app/context/chat-context.tsx:126 | `currentChat` is null exactly when the current id is null or names no chat; otherwise it is one of the chats and carries the current id |
| ChatContext.ChatStore.Restore | app/context/chat-context.tsx:40-66 | The startup effect sets both cells to the restored registry |
| ChatContext.ChatStore.CreateNewChat | app/context/chat-context.tsx:94-98 | The new state is the old list with the new chat at the front, which is current; a fresh id keeps the registry consistent |
| ChatContext.ChatStore.SelectChat | app/context/chat-context.tsx:100-102 | The current id becomes the id and the chats do not change |
| ChatContext.ChatStore.DeleteChat | app/context/chat-context.tsx:104-110 | The new state is the deletion of the old one, and it stays consistent |
| ChatContext.ChatStore.AddMessage | app/context/chat-context.tsx:112-124 | The chats become the appended list, the current id is unchanged, and consistency is kept |
| ChatStream.ReadAt | app/chat/hooks/useChatStream.ts:76-77 | The reader yields the chunks in order, then reports done or throws |
| ChatStream.NeedsNewChat | app/chat/hooks/useChatStream.ts:20 | `!currentChatId`: true for a null current id and for the empty id |
| ChatStream.Concat | app/chat/hooks/useChatStream.ts:72-79 | The running text `botText`: the received chunks joined in order, starting from the empty text |
| ChatStream.Prelude | app/chat/hooks/useChatStream.ts:20-37 | The provider calls before the request: `createNewChat` when the current id is falsy, then the user message, then the empty bot placeholder |
| ChatStream.IsAbort | app/chat/hooks/useChatStream.ts:82-83 | The catch treats an error as a user abort exactly when its name is "AbortError" |
| ChatStream.UpdatesOf | app/chat/hooks/useChatStream.ts:64-86 | The texts pushed to the bot message: the no-stream warning without a body; otherwise one running text per chunk, plus the text and the stop marker after an abort |
| ChatStream.StreamEffects | app/chat/hooks/useChatStream.ts:64-88 | After the request: the pushed texts, then loading off, on every path including the early return |
| ChatStream.SendEffects | app/chat/hooks/useChatStream.ts:18-88 | One whole `sendMessage`: the provider calls before the request, loading on, then what follows the request |
| ChatStream.Updates | app/chat/hooks/useChatStream.ts:75-81 | The stream makes one update per chunk received, and every update is a bot-message update |
| ChatStream.UpdatesAt | app/chat/hooks/useChatStream.ts:72-81 | After the k-th chunk, the text passed to updateLastBotMessage is the concatenation of chunks 1..k |
| ChatStream.ConcatAppend | app/chat/hooks/useChatStream.ts:79 | Folding one more chunk extends the accumulated text by that chunk |
| ChatStream.UpdatesStep | app/chat/hooks/useChatStream.ts:79-80 | One more chunk adds exactly one update, carrying the new running text |
| ChatStream.ConcatPrefix | app/chat/hooks/useChatStream.ts:72-81 | Every running text is a prefix of the final accumulated text |
| ChatStream.StreamPrefixes | app/chat/hooks/useChatStream.ts:72-81 | Every text pushed while streaming is a prefix of the text the stream ends with |
| ChatStream.LastUpdateOfUpdates | app/chat/hooks/useChatStream.ts:80 | The last streamed update carries all the chunks, or there is none |
| ChatStream.LastUpdateSkips | app/chat/hooks/useChatStream.ts:88 | Steps that are not updates, such as clearing loading, do not change the displayed text |
| ChatStream.LastUpdateIgnoresPrefix | app/chat/hooks/useChatStream.ts:20-39 | Steps that are not updates, placed before the stream, do not change the last pushed text |
| ChatStream.DisplayedText | app/chat/hooks/useChatStream.ts:18-88 | The text the bot message shows after `sendMessage` is the last text the stream pushed: the calls before the request and the loading changes never change it |
| ChatStream.FinalText | app/chat/hooks/useChatStream.ts:64-86 | The bot message ends as the no-stream warning without a body, as the chunks plus the stop marker after an abort, and as the last partial text (or the empty placeholder) after done or another error |
| ChatStream.UpdateCount | app/chat/hooks/useChatStream.ts:64-86 | Without a body there is exactly one update and no read; after done or another error, one update per chunk; after an abort, exactly one extra update (text + stop marker) |
| ChatStream.LoadingBracket | app/chat/hooks/useChatStream.ts:39-88 | Loading turns on once, right after the two messages, and off once, as the last step; nothing in between touches it |
| ChatStream.HelloExample | app/chat/hooks/useChatStream.ts:72-81 | Chunks "Hel" and "lo!" push "Hel" then "Hello!", and "Hello!" is what remains |
| ChatStream.ReplayPrelude | app/chat/hooks/useChatStream.ts:20-37 | The provider calls before the request are: create a chat when the current id is falsy, then append the user message, then append the bot placeholder |
| ChatStream.FindAfterTwoAdds | app/context/chat-context.tsx:112-126 | Two appends in a row leave the current chat with both messages at the end, in order |
| ChatStream.TurnInNewChat | app/chat/hooks/useChatStream.ts:20-37 | With a falsy current id, a new greeting chat becomes current and ends with the user's text and an empty bot message |
| ChatStream.TurnLostInFreshChat | app/chat/hooks/useChatStream.ts:20-37 | As written, both appends carry the falsy id captured before `createNewChat`: the new chat becomes current but keeps only its greeting, and with a null captured id the registry is exactly the one right after the creation |
| ChatStream.TurnInCurrentChat | app/chat/hooks/useChatStream.ts:20-37 | With a current id naming a chat, that chat stays current and gains the user message and the empty bot message, in that order |
| ChatStream.TurnLostOnDanglingId | app/chat/hooks/useChatStream.ts:20-37 | With a current id naming no chat, both appends leave the registry unchanged |
| ChatStream.AbortController.constructor | app/chat/hooks/useChatStream.ts:41 | A new controller has not been aborted |
| ChatStream.AbortController.Abort | app/chat/hooks/useChatStream.ts:93 | Aborting marks the controller aborted |
| ChatStream.StreamHook.constructor | app/chat/hooks/useChatStream.ts:15-16 | The hook starts not loading, with no controller and nothing recorded |
| ChatStream.StreamHook.SendMessage | app/chat/hooks/useChatStream.ts:18-89 | The recorded steps are the prelude, loading on, the stream's updates and loading off, in that order; loading ends false; a fresh unaborted controller is installed; the read count is as specified |
| ChatStream.StreamHook.StartTurn | app/chat/hooks/useChatStream.ts:20-37 | Creates a chat when the current id is falsy, then records the user message and the empty bot placeholder, in that order |
| ChatStream.StreamHook.ReadStream | app/chat/hooks/useChatStream.ts:70-86 | The read loop and its catch push exactly the stream's updates, plus the marked text after an abort, and read once per chunk plus once more |
| ChatStream.StreamHook.Stop | app/chat/hooks/useChatStream.ts:91-96 | An existing controller is aborted, and loading is set false either way |
| ChatSidebar.Preview | app/chat/components/ChatSidebar.tsx:36-40 | There is no preview exactly when the chat has no messages; a last text of at most 30 characters is shown unchanged; a longer one starts with its first 30 characters and is 33 long; a preview never exceeds 33 |
| ChatSidebar.PreviewShort | app/chat/components/ChatSidebar.tsx:37-40 | A last text of length at most 30 is the preview itself |
| ChatSidebar.PreviewLong | app/chat/components/ChatSidebar.tsx:38-39 | A longer text is shown as exactly its first 30 characters followed by "...", 33 characters in all |
| ChatSidebar.PreviewOfLastOnly | app/chat/components/ChatSidebar.tsx:36-40 | The preview depends on the last message only |
| ChatSidebar.Sidebar.IsOpen | app/chat/components/ChatSidebar.tsx:93 | `{renameId && ...}`: the dialog shows exactly when the rename id is neither null nor empty |
| ChatSidebar.Sidebar.constructor | app/chat/components/ChatSidebar.tsx:18-19 | The dialog starts closed with an empty value |
| ChatSidebar.Sidebar.Edit | app/chat/components/ChatSidebar.tsx:57-61 | Edit opens the dialog for that chat, pre-filled with the chat's current title, and calls nothing |
| ChatSidebar.Sidebar.Type | app/chat/components/ChatSidebar.tsx:100 | Typing replaces the value as typed |
| ChatSidebar.Sidebar.Cancel | app/chat/components/ChatSidebar.tsx:105 | Cancel closes the dialog without calling renameChat |
| ChatSidebar.Sidebar.Save | app/chat/components/ChatSidebar.tsx:111-114 | Save calls renameChat once with the chat id and the value exactly as typed (no trimming or emptiness check), then closes |
| ChatSidebar.Sidebar.ClearAll | app/chat/components/ChatSidebar.tsx:84-86 | The clear-all button makes one clearAllChats call and leaves the dialog as it was |

## Left out

- Persistence is left out: the write effect at app/context/chat-context.tsx:70-74, the `isMounted` flag, `JSON.parse`/`stringify` and the `Date` rebuild. Restore takes the stored string and the parsed chats (or a parse failure) as parameters, and the snapshot is opaque.
- Id and clock sources are parameters: `Date.now()`, `new Date()`, `toLocaleDateString()` and `crypto.randomUUID()`. Ids are not assumed unique. Consistency lemmas that need a fresh id say so in their `requires`.
- `updateLastBotMessage`, `renameChat` and `clearAllChats` are not defined in the provider file. The hook's `updateLastBotMessage` calls are recorded in `StreamHook.trace`, and the sidebar's `renameChat` and `clearAllChats` calls in `Sidebar.calls`. Their effect on the registry is not modelled.
- The sidebar's create, select and delete buttons just forward to the provider operations modelled above, so they have no model of their own.
- The network is left out: `fetch`, the request body, the relay endpoint (app/api/chat/route.ts) and the uncaught rejection of `fetch` itself (app/chat/hooks/useChatStream.ts:43). The response is a parameter.
- `TextDecoder` is left out. Chunks arrive already decoded, so multi-byte sequences split across chunks are not modelled.
- Abort signalling is left out. `Stop` marks the controller aborted, but that does not feed back into a running `SendMessage`. A user abort appears only as a reader that ends by throwing "AbortError".
- Concurrency is left out: async interleaving, React state batching and stale closures. Operations run one after another on the current state. With React's captured values, `deleteChat` reads a stale `chats`, and the appends right after `createNewChat` in `sendMessage` use the current id captured before the creation. That one case is modelled separately (`TurnLostInFreshChat`, see Findings); `Replay` and the rest of the model use the sequential order.
- String lengths are counted in Dafny characters (Unicode scalar values). JavaScript counts UTF-16 code units, so `slice(0, 30)` can differ from the model for text outside the Basic Multilingual Plane.
- Rendering, markdown, the input box's whitespace guard and the separate rename modal component hold no state logic beyond display.

## Findings

| source | as written | input that shows it | evidently intended | confidence | as-written member | corrected member |
|---|---|---|---|---|---|---|
| app/chat/hooks/useChatStream.ts:20-37 | `addMessage` keeps the falsy `currentChatId` from the render before `createNewChat`, so neither message matches the new chat | `sendMessage("hi")` with a null current id: the new chat keeps only its greeting, and "hi" and the bot placeholder are dropped | the new chat becomes current and holds the greeting, the user's text and the bot placeholder | medium, not executed: follows from React's captured state as the code reads | ChatStream.TurnLostInFreshChat | ChatStream.TurnInNewChat |
