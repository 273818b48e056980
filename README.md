# Chat page state machine and relay route, in Dafny

The repository is a small AI chat front-end. Its page component keeps a list of
conversations, a map from conversation id to stored transcript, the selected
conversation, the displayed transcript, the input box and an in-flight flag.
Four handlers change that state: sending a message (which streams the
assistant's reply in chunks), starting a new chat, deleting a conversation and
switching to one. An effect reloads the displayed transcript from the store.
A server route validates the request body and hands the message list on to
an LLM provider.

This project models both pieces.

- `types.dfy` (`ChatTypes`) holds the shared values. These are a message (role and
  content), a conversation's sidebar entry (id, title, timestamp) and the fixed
  texts the page writes.
- `text.dfy` (`ChatText`) holds the string operations the page uses:
  - ECMAScript `trim` and the blank-input test;
  - `substring` with its clamped end index;
  - the 20-character title with its `...`;
  - the left fold `aiReply += chunk` over the chunks.
- `conversations.dfy` (`ConversationList`) holds the list and map operations:
  - the id set;
  - the `max + 1` id choice;
  - retitling (`map`) and deleting (`filter`);
  - the `convMessages[id] || []` lookup.
- `page.dfy` (`Page`) holds the component.
  - `ChatPage` is a class with the six state fields. Each handler is a method
    that updates them step by step, in the source's order, and that includes
    the `while (true)` read loop of the send.
  - Each method is specified by a pure transition on a `PageState` snapshot:
    `AfterSend`, `AfterNewChat`, `AfterDelete`, `AfterSwitch` and `Effect`. Its
    postcondition is `State() == After…(old(State()), …)`.
  - The handlers' properties are stated and proved about those transitions.
    These cover: what changes and what stays the same; id freshness; the title
    bound; the streaming prefix property; the failure path; and the
    preservation of the page invariant `Valid`.
- `route.dfy` (`ChatRoute`) models `POST` as a pure function. It takes the body
  text and an abstract `JSON.parse` outcome (a syntax error, or a JSON value) and
  returns a 400, a 500 or the forwarded message list.

An asynchronous send is modelled as one atomic transition. Two inputs stand in
for the network:
- `chunks` is the decoded pieces the response delivers;
- `failure` says whether `fetch` fails or answers non-OK (`BeforeResponse`), or
  whether the read after the k-th chunk throws (`AfterChunks(k)`).

Every store write of a send goes to the selection captured when the send
started. That selection is the `activeConvId` of the render whose closure runs.

Where the code departs from what its comments or its evident design suggest,
the model follows the code:
- The title is recomputed from the input on every send, not only on the first
  (the comment at `src/app/page.tsx:41` says "based on first message").
- New ids are `max + 1` over the current list. Deleting the newest
  conversation frees its id, and the next new chat reuses it.
  `Page.DeletedIdReused` shows this on a concrete sequence of handler calls.
- A send whose stream ends without a single chunk leaves the empty assistant
  placeholder on screen. The placeholder is never stored, so that conversation's
  stored transcript ends with the user's message. The display is then out of
  sync with the store, and `Page.SendKeepsValid` states exactly when that
  happens.
- After the last conversation is deleted the selection is null. A send then
  updates only the display and stores nothing.
- In the route, the falsiness test on `messages` never decides anything,
  because every array is truthy (`ChatRoute.RejectsMessages`).

## Model

| member | source | states |
|---|---|---|
| ChatText.TrimStart | src/app/page.tsx:26 | The result is a suffix of the input. Everything dropped is whitespace, and the result does not start with whitespace. |
| ChatText.TrimEnd | src/app/page.tsx:26 | The result is a prefix of the input. Everything dropped is whitespace, and the result does not end with whitespace. |
| ChatText.Trim | src/app/page.tsx:26 | `input.trim()` is empty exactly when every character is ECMAScript whitespace, so `!input.trim()` is `IsBlank(input)`. |
| ChatText.Substring | src/app/page.tsx:44 | `substring(0, n)` is a prefix of the string. Its length is n, clamped to the string's length. |
| ChatText.Title | src/app/page.tsx:42-46 | The title equals the input when the input has at most 20 characters. Otherwise it is the input's first 20 characters followed by "...". It is longer than 20 exactly when the input is, and never longer than 23. |
| ChatText.ConcatGrows | src/app/page.tsx:69-86 | The reply accumulated from the first i chunks is a prefix of the reply from the first j chunks, for i ≤ j. |
| ChatText.ConcatAppend | src/app/page.tsx:73 | Accumulating two runs of chunks one after the other gives the two replies joined. |
| ConversationList.MaxId | src/app/page.tsx:119 | For a non-empty list, `Math.max` over the ids is one of the list's ids, and no id exceeds it. |
| ConversationList.NextId | src/app/page.tsx:119 | The new id is 1 for an empty list and otherwise the largest id plus one. So it is larger than every listed id and not among them. |
| ConversationList.Retitle | src/app/page.tsx:42-46 | The `map` keeps the length, ids, timestamps and uniqueness of ids. Only entries with the given id change, and they get the new title. |
| ConversationList.Without | src/app/page.tsx:137-138 | The `filter` removes exactly the id: the remaining id set is the old one minus it. It never grows the list and keeps ids unique. |
| ConversationList.WithoutKeepsOrder | src/app/page.tsx:137-138 | The filtered list consists of the entries whose id differs, at strictly increasing positions of the original list. Every such entry is kept, so relative order is preserved. |
| ConversationList.WithoutFirst | src/app/page.tsx:147-149 | The first remaining conversation is the first entry of the old list whose id differs from the deleted one. |
| ConversationList.UniqueIdsDistinct | src/app/page.tsx:119 | In a list with unique ids, distinct positions hold distinct ids. |
| ChatRoute.RejectsMessages | src/app/api/chat/route.ts:23 | The validation test (falsy, or not an array) rejects `messages` exactly when it is not an array. |
| ChatRoute.Post | src/app/api/chat/route.ts:4-52 | These are the cases:<br>• An empty body is a 400 "Request body is empty", whatever the parse would give.<br>• A syntax error is a 500 "Failed to process request" carrying its message.<br>• A parsed `null` is a 500, because destructuring it throws.<br>• Any other body without an array `messages` is a 400 "Messages must be an array".<br>• The list is forwarded unchanged exactly when the body is non-empty and its `messages` is an array.<br>• The status (`Status`) is 200 exactly for a forwarded list and 500 exactly for a syntax error or a parsed `null`; every other outcome is 400.<br>• Destructuring (`MessagesOf`) finds only an object's own `messages` member; arrays and primitives yield `undefined`. |
| ChatRoute.EmptyArrayForwarded | src/app/api/chat/route.ts:23-36 | `{"messages": []}` passes validation and is forwarded as the empty list. |
| ChatRoute.PrimitiveIsBadRequest | src/app/api/chat/route.ts:20-31 | A body parsing to a number, string or boolean gets 400, not 500. |
| Page.Initial | src/app/page.tsx:6-16 | The mount state (one empty "New Chat" with id 1, selected) satisfies the page invariant and is in sync. |
| Page.Effect | src/app/page.tsx:19-23 | The effect changes only the display. After it, a valid state is in sync, and it leaves a state that is already in sync unchanged. |
| Page.ChunksRead | src/app/page.tsx:69-86 | The loop folds in all chunks unless a read throws first. It folds in none when the request itself fails, and exactly k when the read after the k-th chunk throws. |
| Page.PartialGrows | src/app/page.tsx:64-85 | While the reply streams, the user's transcript is never altered. There is exactly one trailing assistant message, and each reply so far is a prefix of every later one. |
| Page.FinalTranscript | src/app/page.tsx:76-96 | A send ends with the user's transcript untouched and one assistant message after it. That message is the fixed error text on failure, and otherwise the whole reply. |
| Page.StoredTranscript | src/app/page.tsx:67-104 | What a send stores equals what it displays, unless the stream succeeded with no chunk. In that case the store keeps the user's transcript alone. |
| Page.Show | src/app/page.tsx:76-84 | Writing a transcript to the display and under the send-time id leaves nothing more for the effect to change. |
| Page.Begin | src/app/page.tsx:28-47 | The optimistic start appends the raw input as a user message and clears the input. It raises the in-flight flag and keeps the selection. With a selection it retitles only that conversation and stores the new transcript under it. Without one it stores nothing. |
| Page.BeginKeepsValid | src/app/page.tsx:28-47 | The optimistic start keeps the page invariant and leaves the display in sync. |
| Page.Streamed | src/app/page.tsx:64-86 | After k ≥ 1 chunks, the display and the send-time entry both hold the user's transcript plus the reply so far. With no chunk, only the empty placeholder is displayed. |
| Page.StreamedNext | src/app/page.tsx:73-84 | Each chunk appends to the reply (by `ConcatAppend`) and overwrites the display and the send-time entry with the next reply so far. |
| Page.Finish | src/app/page.tsx:49-107 | The try/catch/finally leaves the final transcript displayed and the in-flight flag lowered. It stores the final transcript under the send-time id, except after a chunkless success. |
| Page.AfterSend | src/app/page.tsx:25-108 | A blank input or a send in flight changes nothing. An accepted send clears the input and the in-flight flag on every exit and keeps the selection. It leaves the user's transcript followed by exactly one assistant message. |
| Page.SendRetitles | src/app/page.tsx:42-46 | An accepted send retitles the selected conversation from the input and no other. Without a selection the list is unchanged. |
| Page.SendStores | src/app/page.tsx:35-104 | An accepted send writes only the store entry under the send-time id: the final transcript, including the error transcript on failure. Without a selection the store is unchanged. |
| Page.SendKeepsValid | src/app/page.tsx:25-108 | A send keeps the page invariant. After an accepted send the display is in sync, except after a chunkless success with a selection. |
| Page.AfterNewChat | src/app/page.tsx:110-134 | A new chat:<br>• saves a non-empty display under the old selection first;<br>• prepends `{newId, "New Chat", "Just now"}` to the unchanged old list, where `newId` is 1 or the largest id plus one and is larger than every old id;<br>• selects it with an empty transcript and an empty entry;<br>• leaves the other entries, the input and the flag unchanged;<br>• keeps the invariant. |
| Page.AfterDelete | src/app/page.tsx:136-157 | The list becomes the filtered list and the id leaves the store; no other entry changes. A deleted selection passes to the first remaining conversation with its stored transcript (`Lookup`, `[]` when absent), or to nothing with an empty display. Otherwise the selection stays and an in-sync display is unchanged. The invariant is kept. |
| Page.AfterSwitch | src/app/page.tsx:159-162 | Switching selects the id and displays its stored transcript, or `[]` when the id has none (`Lookup`), changing nothing else. The result is in sync and keeps the invariant for a listed id. Switching to the displayed selection changes nothing. |
| Page.DeletedIdReused | src/app/page.tsx:119 | From the mount state, a new chat gets id 2. After deleting it, the next new chat gets id 2 again. |
| Page.ChatPage.constructor | src/app/page.tsx:6-16 | The component mounts in the initial state. |
| Page.ChatPage.SyncEffect | src/app/page.tsx:19-23 | The effect method performs `Effect`. |
| Page.ChatPage.SetInput | src/app/page.tsx:296 | The input box's change handler sets `input` and nothing else. |
| Page.ChatPage.SendMessage | src/app/page.tsx:25-108 | The send handler performs `AfterSend`. Its ghost trace records the state after each chunk, which is `Streamed` after 1, 2, … chunks. |
| Page.ChatPage.SaveUserMessage | src/app/page.tsx:28-47 | The optimistic start performs `Begin` and returns the transcript it stored and the captured selection. |
| Page.ChatPage.Respond | src/app/page.tsx:49-107 | The try/catch/finally performs `Finish`, with the per-chunk trace. |
| Page.ChatPage.Display | src/app/page.tsx:76-104 | Showing and storing a transcript performs `Show`. |
| Page.ChatPage.ReadReply | src/app/page.tsx:62-86 | The read loop ends in the state `Streamed` describes for the number of chunks read. It reports failure exactly when a read throws, and records the state after each chunk. |
| Page.ChatPage.StartNewChat | src/app/page.tsx:110-134 | The new-chat handler performs `AfterNewChat`. |
| Page.ChatPage.DeleteConversation | src/app/page.tsx:136-157 | The delete handler performs `AfterDelete`. |
| Page.ChatPage.SwitchConversation | src/app/page.tsx:159-162 | The switch handler performs `AfterSwitch`. |

## Left out

- Rendering (JSX, CSS, icons, the sidebar toggle and the conversation count) is not modelled, because it does not change the state the handlers work on. The sidebar's `sidebarOpen` flag is left out for the same reason.
- `fetch`, the HTTP status check and the request body the page sends are not modelled. They appear only as the `BeforeResponse` failure point.
- `TextDecoder` is not modelled: chunks arrive already decoded as strings.
- `streamText`, the `openrouter` provider, the model name and `toTextStreamResponse` are foreign calls. `Post` ends at the message list it would hand them. A provider call that throws synchronously, which would be a 500, is not modelled.
- `JSON.parse` itself is not modelled. Its outcome is an input to `Post`, and object members are a map, so a repeated key keeps its last value.
- `req.text()` failing is not modelled, nor is the `'Unknown error'` details text. The latter applies only to non-`Error` throws, which none of the modelled faults are.
- `console.error` logging is not modelled.
- React's batching and effect scheduling are not modelled. The effect runs after each group of state updates that changes its dependencies.
- Interleavings are not modelled. A switch, new chat or delete while a reply is still streaming, and a second send racing the first, are excluded because the send is one atomic transition.
- ChatText.Title: counts Unicode scalar values, while JavaScript's `length` and `substring` count UTF-16 code units, so titles of inputs outside the Basic Multilingual Plane can differ.
- ChatRoute.Post: the message of the error thrown when destructuring a parsed `null` is engine-specific. It is modelled as one fixed text, `NullDestructureMessage`, in V8's wording.
- ConversationList.NextId: ids are unbounded integers. `Math.max` over a very long spread argument list, and floating-point ids, are not modelled.
