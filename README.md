# Gemini Deck UI: chat session, planner and API-key logic in Dafny

This project models the logic behind the components of the Gemini Deck
front end, with their rendering left aside:

- **The chat console** (`ChatConsole.tsx`). It keeps a WebSocket to the
  streaming chat endpoint. Sending a message adds the user message and an
  empty assistant placeholder with the id `"streaming"`. The inbound frames
  are `chunk`, `done` and `error`:
  - chunks grow the placeholder's text;
  - `done` gives the placeholder a fresh id;
  - `error` ends the stream.

  A debug log keeps the newest 100 entries. `renderMarkdown` cuts a reply
  into paragraphs and fenced code blocks.
- **The agent planner** (`AgentPlanner.tsx`). It posts a goal, loads the
  returned plan with every step pending, and marks the steps running and
  then completed in turn. It also picks a badge colour for each tool.
- **The API-key dialog** (`ApiKeyModal.tsx`). It validates and stores a
  key, clears it, and masks it for display.
- **The key store** (`apiKeyStore.ts`): one nullable key with set, clear and
  "is configured".

Modules and files:

- `text.dfy`: module `Text`. The JavaScript string operations the sources
  use, with lemmas about them: `trim`, `startsWith`, `substring`,
  `toLowerCase`, `repeat`, `split`, and the decimal writing of a number in a
  template string. `Join` is not used by the sources: it is the inverse of
  `split`, there to state the round trip, and `Value` reads decimal digits
  back, there to state the round trip of the number writing.
- `wrappers.dfy`: module `Wrappers`, the `Option` type (JavaScript
  `null`/`undefined`).
- `chat_session.dfy`: module `ChatSession`. The console's state as a value
  (`Session`), one function per event handler, and `Step`/`Run` over a
  sequence of events, each handled at its own time. All the properties of the chat protocol are proved
  here.
- `chat_console.dfy`: module `ChatConsole`. The console as a class whose
  fields are the component's state and refs. Each handler updates the
  fields in place and is proved to end in exactly the state the matching
  `ChatSession` function gives.
- `markdown.dfy`: module `Markdown`. `renderMarkdown` as a loop over the
  lines, proved equal to a block-by-block reading of the lines (`Blocks`).
  Lemmas about that reading follow.
- `agent_planner.dfy`: module `AgentPlanner`. The planner panel as a class;
  the plan operations are functions.
- `api_key_modal.dfy` and `api_key_store.dfy`: modules `ApiKeyModal` and
  `ApiKeyStore`. The dialog and the store as classes; validation and
  masking are functions.

Values that come from outside are parameters:

- the clock (`now`, the ISO timestamp in a log entry);
- `crypto.randomUUID()` (`userId`, `finalId`);
- the inbound frames, the socket's open, close and error events, and the
  reconnect timer firing;
- the answer of the planning endpoint (`PlanReply`).

### Behaviour of the code worth knowing

The handlers behave as follows, and the model does the same.

- `onclose` clears `isConnected` but not `isStreaming`. A stream cut off by
  a disconnect stays "streaming", and sending stays blocked until an
  `error` or `done` frame arrives (`ChatSession.CloseThenRetryReconnects`).
- The send guard checks that a socket object exists, not that it is open.
  On a closed socket `send` discards silently. On a socket still connecting
  `send` throws after the user message was added, so the user message is
  shown but no placeholder is added and no stream starts
  (`ChatSession.SendWhileConnecting`).
- After an `error` frame the placeholder keeps the id `"streaming"` and its
  partial text. The next send adds a second placeholder with the same id
  (`ChatSession.ErrorThenSendKeepsOldPlaceholder`).
- `connect` skips only when the current socket is open. Called while a
  socket is still connecting, it creates another one
  (`ChatSession.ConnectOnlyWhenNotOpen`).
- The key format check refuses only keys that both lack the `AI` prefix and
  are shorter than 20 characters. Either condition alone is enough to be
  accepted (`ApiKeyModal.FormatRefusedExactly`).

## Model

| member | source | states |
|---|---|---|
| Text.IsWhitespace | src/components/ApiKeyModal/ApiKeyModal.tsx:23 | the characters `trim` removes: the ECMAScript white space and line terminators |
| Text.Trim | src/components/ApiKeyModal/ApiKeyModal.tsx:23 | `trim` never lengthens a string, and what it returns neither begins nor ends with whitespace (what it removes is `TrimIsInfix`) |
| Text.TrimIsInfix | src/components/ChatConsole/ChatConsole.tsx:129 | the input is some whitespace, then its trim, then some whitespace: trimming removes only whitespace, and only at the two ends |
| Text.TrimEmpty | src/components/ChatConsole/ChatConsole.tsx:124 | a trimmed input is empty exactly when the input is whitespace only, which is when the send and save guards refuse it |
| Text.TrimIdempotent | src/components/ChatConsole/ChatConsole.tsx:129 | trimming the already trimmed message text changes nothing |
| Text.TrimOfUntrimmed | src/components/ApiKeyModal/ApiKeyModal.tsx:23 | a string with no whitespace at either end is its own trim |
| Text.StartsWith | src/components/ApiKeyModal/ApiKeyModal.tsx:28 | `startsWith`: the prefix is no longer than the string and equals its first characters |
| Text.Prefix | src/components/ChatConsole/ChatConsole.tsx:134 | `substring(0, 50)` keeps the first 50 characters, or the whole text when it is shorter |
| Text.ToLower | src/components/AgentPlanner/AgentPlanner.tsx:123 | lower-casing keeps the length, maps each character on its own, and leaves no capital letter |
| Text.Repeat | src/components/ApiKeyModal/ApiKeyModal.tsx:49 | `"•".repeat(n)` is n bullets |
| Text.NatToString | src/components/AgentPlanner/AgentPlanner.tsx:58 | the status in `HTTP ${status}` is written as decimal digits without leading zeros |
| Text.Digit | src/components/AgentPlanner/AgentPlanner.tsx:58 | each digit character stands for its value |
| Text.NatToStringValue | src/components/AgentPlanner/AgentPlanner.tsx:58 | reading the written status back as decimal digits gives the status itself |
| Text.Split | src/components/ChatConsole/ChatConsole.tsx:153 | `split("\n")` gives at least one piece, and no piece holds a newline |
| Text.JoinSplit | src/components/ChatConsole/ChatConsole.tsx:153 | joining the pieces of a split with the separator gives back the text |
| Text.SplitJoin | src/components/ChatConsole/ChatConsole.tsx:153 | splitting a join of separator-free pieces gives back the pieces |
| Markdown.IsFence | src/components/ChatConsole/ChatConsole.tsx:160 | a fence line starts with three backticks |
| Markdown.NextFence | src/components/ChatConsole/ChatConsole.tsx:160 | the index found is the first line that starts with three backticks, and none is found only when there is none |
| Markdown.Blocks | src/components/ChatConsole/ChatConsole.tsx:159-197 | a reply renders to at most one element per line |
| Markdown.InBlock | src/components/ChatConsole/ChatConsole.tsx:179-182 | inside an open block, the rest renders to at most one element per line |
| Markdown.RenderMarkdown | src/components/ChatConsole/ChatConsole.tsx:151-200 | the loop with its `inCodeBlock` and `codeContent` variables returns exactly the block-by-block reading of the reply's lines |
| Markdown.OpenBlockAtFence | src/components/ChatConsole/ChatConsole.tsx:165-175 | inside a block, a fence line emits one code element holding what was collected, and reading goes on outside the block |
| Markdown.OpenBlockAtLine | src/components/ChatConsole/ChatConsole.tsx:179-182 | inside a block, any other line is collected followed by a newline |
| Markdown.ParagraphLine | src/components/ChatConsole/ChatConsole.tsx:185-196 | outside a block, a line that is not a fence renders as one paragraph holding that line |
| Markdown.NextFenceAfter | src/components/ChatConsole/ChatConsole.tsx:160 | after fence-free lines, the next fence is the first one found |
| Markdown.ClosedBlock | src/components/ChatConsole/ChatConsole.tsx:160-182 | a closed block renders as one code element holding its inner lines, each followed by a newline; the fences render nothing |
| Markdown.Unterminated | src/components/ChatConsole/ChatConsole.tsx:161-164 | a block that is never closed renders nothing, not even its inner lines |
| Markdown.NoFenceAllParagraphs | src/components/ChatConsole/ChatConsole.tsx:185-196 | text without fences renders as one paragraph per line, in order |
| Markdown.ParagraphsAreLines | src/components/ChatConsole/ChatConsole.tsx:159-197 | every rendered paragraph holds one of the reply's lines, and never a fence |
| Markdown.ParagraphsInBlockAreLines | src/components/ChatConsole/ChatConsole.tsx:179-197 | the same, from inside an open block |
| Markdown.CodeText | src/components/ChatConsole/ChatConsole.tsx:180 | the text a block collects: each of its lines followed by a newline, in order (its properties are `CodeTextIsJoin` and `CodeTextSplits`) |
| Markdown.CodeTextIsJoin | src/components/ChatConsole/ChatConsole.tsx:180 | a code element's text is its lines joined by newlines, with a final newline |
| Markdown.CodeTextSplits | src/components/ChatConsole/ChatConsole.tsx:153-180 | splitting a code element's text at newlines gives back its lines and one empty piece |
| ChatSession.Last | src/components/ChatConsole/ChatConsole.tsx:36 | `slice(-n)` keeps at most n elements |
| ChatSession.PushLog | src/components/ChatConsole/ChatConsole.tsx:34-38 | `addDebugLog` keeps at most 100 entries: the new entry last, after the newest 99 old entries in order |
| ChatSession.PushLogIsLast | src/components/ChatConsole/ChatConsole.tsx:36 | one log update keeps the newest 100 of the old entries plus the new one |
| ChatSession.LastOfLasts | src/components/ChatConsole/ChatConsole.tsx:36 | the same for any number of entries added after the trim |
| ChatSession.PushAllIsLast | src/components/ChatConsole/ChatConsole.tsx:34-38 | however many entries are logged, the log is exactly the newest 100 of everything logged, in order |
| ChatSession.Initial | src/components/ChatConsole/ChatConsole.tsx:22-32 | the mounted console: no messages, no input, not connected, not streaming, an empty log, no socket, empty refs (satisfies `Valid`: `InitialValid`) |
| ChatSession.Given | src/components/ChatConsole/ChatConsole.tsx:62-69 | JavaScript truthiness of an optional string: present and not empty, as `data.trace_id` and `data.content` are tested |
| ChatSession.Entry | src/components/ChatConsole/ChatConsole.tsx:35-36 | a log line: the time in brackets, a space, then the text |
| ChatSession.OnInput | src/components/ChatConsole/ChatConsole.tsx:296 | the input's `onChange`: the input becomes the typed text and nothing else changes |
| ChatSession.CanSend | src/components/ChatConsole/ChatConsole.tsx:124 | the send guard: the trimmed input is not empty, a socket exists and no stream is in flight (`SendRejected`, `SendAccepted`) |
| ChatSession.Valid | src/components/ChatConsole/ChatConsole.tsx:22-32 | the session invariant: at most 100 log entries, and while streaming the last message is the assistant placeholder showing exactly the reply received so far (kept by every handler: `StepPreservesValid`) |
| ChatSession.Connect | src/components/ChatConsole/ChatConsole.tsx:48-52 | `connect`: nothing on an open socket; otherwise a log entry, a new socket connecting and one more attempt (`ConnectOnlyWhenNotOpen`) |
| ChatSession.OnOpen | src/components/ChatConsole/ChatConsole.tsx:54-57 | `onopen`: connected, the socket open, and one log entry |
| ChatSession.OnClose | src/components/ChatConsole/ChatConsole.tsx:103-107 | `onclose`: disconnected, the socket closed, one log entry and one reconnect scheduled; the streaming flag is left as it was (`CloseThenRetryReconnects`) |
| ChatSession.OnSocketError | src/components/ChatConsole/ChatConsole.tsx:109-111 | `onerror`: one log entry and nothing else |
| ChatSession.OnRetry | src/components/ChatConsole/ChatConsole.tsx:106 | a scheduled reconnect fires: one fewer pending, then `connect` (`CloseThenRetryReconnects`) |
| ChatSession.SendMessage | src/components/ChatConsole/ChatConsole.tsx:123-149 | `sendMessage`: refused by its guard, cut short by a socket still connecting, or run in full (`SendRejected`, `SendWhileConnecting`, `SendAccepted`) |
| ChatSession.Submit | src/components/ChatConsole/ChatConsole.tsx:126-134 | the first half of an accepted send: the user message with the trimmed input, and its log entry with the first 50 characters |
| ChatSession.StartStream | src/components/ChatConsole/ChatConsole.tsx:136-148 | the second half: the text handed to the socket, the empty placeholder appended, streaming started with an empty reply and trace, the input cleared |
| ChatSession.OnMessage | src/components/ChatConsole/ChatConsole.tsx:59-101 | `onmessage`: a frame that does not parse is only logged; a parsed frame is received, then applied (`MalformedOnlyLogged`, `MessagePreservesValid`) |
| ChatSession.Receive | src/components/ChatConsole/ChatConsole.tsx:62-67 | every parsed frame is logged, and a given trace id that differs from the tracked one replaces it and is logged (`TraceAdopted`) |
| ChatSession.Apply | src/components/ChatConsole/ChatConsole.tsx:69-97 | the frame type selects the chunk, `done` or `error` update, and any other type changes nothing (`ChunkAppends`, `DoneFinalizes`, `ErrorKeepsPartialReply`) |
| ChatSession.ShowChunk | src/components/ChatConsole/ChatConsole.tsx:71-80 | the chunk updater: a trailing assistant placeholder shows the reply so far and the trace; otherwise the list is kept (`ChunkAppends`) |
| ChatSession.Finalize | src/components/ChatConsole/ChatConsole.tsx:82-90 | the `done` updater: a trailing message with the placeholder id gets the fresh id and the trace; otherwise the list is kept (`DoneFinalizes`) |
| ChatSession.Step | src/components/ChatConsole/ChatConsole.tsx:48-149 | one event (typing, `connect`, a socket event, the reconnect timer, a send, a frame) handled at a given time by its handler |
| ChatSession.Run | src/components/ChatConsole/ChatConsole.tsx:48-149 | a sequence of events handled in order, each at its own time (`RunPreservesValid`, `RunAppend`, `Exchange`) |
| ChatSession.InitialValid | src/components/ChatConsole/ChatConsole.tsx:22-32 | the mounted console satisfies the session invariant |
| ChatSession.StepPreservesValid | src/components/ChatConsole/ChatConsole.tsx:48-149 | every handler keeps the invariant: at most 100 log entries, and while streaming the last message is the placeholder showing exactly the reply received so far |
| ChatSession.SendPreservesValid | src/components/ChatConsole/ChatConsole.tsx:123-149 | `sendMessage` keeps the invariant |
| ChatSession.MessagePreservesValid | src/components/ChatConsole/ChatConsole.tsx:59-101 | `onmessage` keeps the invariant, whatever the frame |
| ChatSession.RunPreservesValid | src/components/ChatConsole/ChatConsole.tsx:48-149 | any sequence of events from a valid state keeps the invariant |
| ChatSession.CloseThenRetryReconnects | src/components/ChatConsole/ChatConsole.tsx:103-107 | a close and its timer leave a new socket connecting and one more attempt, with the streaming flag and the history untouched |
| ChatSession.ConnectOnlyWhenNotOpen | src/components/ChatConsole/ChatConsole.tsx:48-52 | `connect` is a no-op on an open socket; otherwise it creates a new socket, even beside one still connecting |
| ChatSession.SendRejected | src/components/ChatConsole/ChatConsole.tsx:124 | a blank input, no socket yet, or a stream in flight leaves the whole state unchanged |
| ChatSession.SendAccepted | src/components/ChatConsole/ChatConsole.tsx:123-149 | an accepted send appends exactly the user message with the trimmed text and the empty placeholder, sends the text, starts streaming with an empty reply and trace, and clears the input |
| ChatSession.SendWhileConnecting | src/components/ChatConsole/ChatConsole.tsx:133-136 | on a socket still connecting, only the user message is added: nothing is sent, no placeholder is added, no stream starts, and the input is kept |
| ChatSession.TraceAdopted | src/components/ChatConsole/ChatConsole.tsx:64-67 | a parsed frame with a non-empty trace id makes it the tracked trace; otherwise the trace is kept |
| ChatSession.ChunkAppends | src/components/ChatConsole/ChatConsole.tsx:69-80 | a chunk with content extends the reply by it; a trailing placeholder shows the whole reply and the trace, and no other message changes; apart from the log and the trace, nothing else in the state changes |
| ChatSession.DoneFinalizes | src/components/ChatConsole/ChatConsole.tsx:81-93 | `done` ends the stream and clears the reply; a trailing placeholder gets the fresh id and the trace and keeps its text; no other message changes; apart from the log and the trace, nothing else in the state changes |
| ChatSession.ErrorKeepsPartialReply | src/components/ChatConsole/ChatConsole.tsx:94-97 | `error` ends the stream and changes no message, so the placeholder keeps its id and partial text; apart from the log and the trace, nothing else in the state changes |
| ChatSession.ErrorThenSendKeepsOldPlaceholder | src/components/ChatConsole/ChatConsole.tsx:94-149 | after an error, the next send leaves two messages with the placeholder id |
| ChatSession.MalformedOnlyLogged | src/components/ChatConsole/ChatConsole.tsx:98-100 | a frame that does not parse only adds a parse-error log entry |
| ChatSession.ChunkStep | src/components/ChatConsole/ChatConsole.tsx:69-80 | during a stream, one chunk keeps the stream open and the placeholder showing the longer reply |
| ChatSession.ChunksConcatenate | src/components/ChatConsole/ChatConsole.tsx:69-80 | during a stream, any run of chunks makes the placeholder show the concatenation of their contents, in order |
| ChatSession.Exchange | src/components/ChatConsole/ChatConsole.tsx:59-149 | a send, its chunks and `done` leave the earlier history, then the user message, then an assistant message with the fresh id, the streamed text and the trace, with the stream closed |
| ChatSession.ExchangeRun | src/components/ChatConsole/ChatConsole.tsx:59-149 | the events of an exchange, each at its own time, run as the send, then the chunks, then the final frame |
| ChatSession.RunSingle | src/components/ChatConsole/ChatConsole.tsx:59-149 | a run of one event is that event's handler |
| ChatSession.ExchangeStages | src/components/ChatConsole/ChatConsole.tsx:133-144 | the history through the three stages of an exchange |
| ChatSession.RunAppend | src/components/ChatConsole/ChatConsole.tsx:48-149 | running two runs of events one after the other is running their concatenation |
| ChatConsole.Console.constructor | src/components/ChatConsole/ChatConsole.tsx:22-32 | the mounted console holds no messages, no input, no socket and an empty log, and satisfies the invariant |
| ChatConsole.Console.Connect | src/components/ChatConsole/ChatConsole.tsx:48-52 | `connect` in place: its new state is the session's |
| ChatConsole.Console.HandleOpen | src/components/ChatConsole/ChatConsole.tsx:54-57 | `onopen`: connected and logged |
| ChatConsole.Console.HandleClose | src/components/ChatConsole/ChatConsole.tsx:103-107 | `onclose`: disconnected, logged, and one reconnect scheduled |
| ChatConsole.Console.HandleError | src/components/ChatConsole/ChatConsole.tsx:109-111 | `onerror`: logged only |
| ChatConsole.Console.FireRetry | src/components/ChatConsole/ChatConsole.tsx:106 | a reconnect timer fires and runs `connect` |
| ChatConsole.Console.EditInput | src/components/ChatConsole/ChatConsole.tsx:296 | typing replaces the input and nothing else |
| ChatConsole.Console.SendMessage | src/components/ChatConsole/ChatConsole.tsx:123-149 | `sendMessage` in place: its new state is the session's |
| ChatConsole.Console.SubmitMessage | src/components/ChatConsole/ChatConsole.tsx:126-134 | the user message with the trimmed text is appended and the send is logged |
| ChatConsole.Console.StartStream | src/components/ChatConsole/ChatConsole.tsx:136-148 | the text goes to the socket, the placeholder is appended, streaming starts, and the reply, trace and input are reset |
| ChatConsole.Console.HandleMessage | src/components/ChatConsole/ChatConsole.tsx:59-101 | `onmessage` in place: its new state is the session's |
| ChatConsole.Console.ReceiveFrame | src/components/ChatConsole/ChatConsole.tsx:62-67 | the frame is logged and its trace id adopted |
| ChatConsole.Console.ApplyFrame | src/components/ChatConsole/ChatConsole.tsx:69-97 | the frame's type selects the chunk, done or error update, and any other type changes nothing |
| ChatConsole.Console.ApplyChunk | src/components/ChatConsole/ChatConsole.tsx:69-80 | a chunk with content extends the reply and shows it in a trailing placeholder |
| ChatConsole.Console.ApplyDone | src/components/ChatConsole/ChatConsole.tsx:81-93 | `done` finalizes the placeholder, ends the stream, clears the reply and logs the trace |
| ChatConsole.Console.ApplyError | src/components/ChatConsole/ChatConsole.tsx:94-97 | `error` is logged and ends the stream |
| AgentPlanner.AllCompleted | src/components/AgentPlanner/AgentPlanner.tsx:135 | `allCompleted`: a plan is loaded and every one of its steps is completed (`EveryCompleted`, `EmptyPlanCompleted`, `FreshPlanNotCompleted`) |
| AgentPlanner.ToolBadgeColor | src/components/AgentPlanner/AgentPlanner.tsx:122-133 | the badge of a tool, chosen on its lower-cased name (`BadgeIgnoresCase`, `BadgeCases`) |
| AgentPlanner.IsOk | src/components/AgentPlanner/AgentPlanner.tsx:57 | `response.ok`: the status is in the range 200 to 299 |
| AgentPlanner.MarkAllPending | src/components/AgentPlanner/AgentPlanner.tsx:64 | the loaded plan has the same steps, in order, each with status pending and every other field kept |
| AgentPlanner.EveryCompleted | src/components/AgentPlanner/AgentPlanner.tsx:135 | true exactly when every step's status is completed |
| AgentPlanner.EmptyPlanCompleted | src/components/AgentPlanner/AgentPlanner.tsx:135 | a plan with no steps counts as all completed |
| AgentPlanner.FreshPlanNotCompleted | src/components/AgentPlanner/AgentPlanner.tsx:62-65 | a freshly loaded plan counts as completed exactly when it has no steps |
| AgentPlanner.BadgeIgnoresCase | src/components/AgentPlanner/AgentPlanner.tsx:122-133 | two tool names that differ only in letter case get the same badge |
| AgentPlanner.BadgeCases | src/components/AgentPlanner/AgentPlanner.tsx:122-133 | shell, browser and file, in any case, get their own badges; every other name gets the default |
| AgentPlanner.Planner.constructor | src/components/AgentPlanner/AgentPlanner.tsx:34-38 | the panel starts with no goal, no plan, no error and nothing in progress |
| AgentPlanner.Planner.EditGoal | src/components/AgentPlanner/AgentPlanner.tsx:34 | typing replaces the goal and nothing else |
| AgentPlanner.Planner.GeneratePlan | src/components/AgentPlanner/AgentPlanner.tsx:41-72 | a blank goal does nothing. Otherwise the trimmed goal is posted; a 2xx reply is loaded with every step pending; any other status sets `HTTP <status>` with no plan; an exception sets its message, or the fixed one; planning ends in every case |
| AgentPlanner.Planner.SetStepStatus | src/components/AgentPlanner/AgentPlanner.tsx:82-97 | one updater: step i of the current plan gets the status and nothing else changes |
| AgentPlanner.Planner.ExecutePlan | src/components/AgentPlanner/AgentPlanner.tsx:74-101 | without a plan, nothing. Otherwise every step ends completed with its other fields kept, the plan counts as all completed, the error is cleared and execution ends |
| AgentPlanner.Planner.ResetPlan | src/components/AgentPlanner/AgentPlanner.tsx:103-107 | no plan, an empty goal and no error |
| ApiKeyStore.KeyStore.constructor | src/stores/apiKeyStore.ts:16 | a fresh store holds no key |
| ApiKeyStore.KeyStore.SetApiKey | src/stores/apiKeyStore.ts:17 | the stored key becomes exactly the argument, `null` included |
| ApiKeyStore.KeyStore.ClearApiKey | src/stores/apiKeyStore.ts:18 | the store holds no key |
| ApiKeyStore.KeyStore.IsConfigured | src/stores/apiKeyStore.ts:19 | true exactly when a key is stored and it is not empty |
| ApiKeyStore.SetNullIsClear | src/stores/apiKeyStore.ts:17-19 | setting `null` leaves the store as clearing does: not configured |
| ApiKeyModal.MaskKey | src/components/ApiKeyModal/ApiKeyModal.tsx:47-50 | the mask has the key's length; a key of 8 characters or fewer is shown whole; a longer one shows its first and last 4 characters with bullets between |
| ApiKeyModal.MaskKeyIdempotent | src/components/ApiKeyModal/ApiKeyModal.tsx:47-50 | masking a masked key changes nothing |
| ApiKeyModal.MaskKeyRevealsOnlyEnds | src/components/ApiKeyModal/ApiKeyModal.tsx:47-50 | two keys of the same length with the same first and last 4 characters have the same mask |
| ApiKeyModal.ValidateKey | src/components/ApiKeyModal/ApiKeyModal.tsx:22-31 | an accepted key is the non-empty trimmed input; a refusal carries one of the two messages |
| ApiKeyModal.BlankInputRefused | src/components/ApiKeyModal/ApiKeyModal.tsx:23-27 | "Please enter your API key" is given exactly for a whitespace-only input |
| ApiKeyModal.FormatRefusedExactly | src/components/ApiKeyModal/ApiKeyModal.tsx:28-31 | "Invalid API key format" is given exactly for a non-blank trimmed key that lacks the `AI` prefix and is shorter than 20 characters |
| ApiKeyModal.AcceptedKeyShape | src/components/ApiKeyModal/ApiKeyModal.tsx:22-32 | an accepted key is non-empty, untrimmable, and starts with `AI` or has at least 20 characters |
| ApiKeyModal.PrefixedKeyAccepted | src/components/ApiKeyModal/ApiKeyModal.tsx:28 | a non-blank key starting with `AI` is accepted at any length |
| ApiKeyModal.LongKeyAccepted | src/components/ApiKeyModal/ApiKeyModal.tsx:28 | a key of 20 characters or more is accepted with any prefix |
| ApiKeyModal.Modal.constructor | src/components/ApiKeyModal/ApiKeyModal.tsx:14-18 | the input starts as the stored key or empty, hidden, with no error and not saved |
| ApiKeyModal.Modal.EditInput | src/components/ApiKeyModal/ApiKeyModal.tsx:131-134 | typing replaces the input and clears the error |
| ApiKeyModal.Modal.HandleSave | src/components/ApiKeyModal/ApiKeyModal.tsx:22-39 | a refused input sets its error and stores nothing; an accepted one is stored trimmed, the error is cleared and `saved` is set |
| ApiKeyModal.Modal.HandleClear | src/components/ApiKeyModal/ApiKeyModal.tsx:41-45 | the stored key is removed, the input emptied and the error cleared |

## Left out

- Rendering: the JSX, the scroll-into-view effect, the debug-panel and
  plan-expansion toggles, the step icons (`getStepIcon`), the show-key
  toggle, and the console's `[ChatConsole Debug]` line.
- The inline markdown of `renderMarkdown` (the bold, italic and inline-code
  regular expressions, the HTML they produce, and the `&nbsp;` of an empty
  paragraph). The model stops at the line and block segmentation.
- Markdown.RenderMarkdown: the language name read off an opening fence is
  not kept, because nothing renders it.
- The ISO time in a log entry and the ids from `crypto.randomUUID()` are
  parameters. Each event of a run carries its own time, but the entries one
  handler logs share that time, where the source reads the clock once per
  entry. Each `done` draws a fresh id, and `ChatSession.DoneFinalizes`
  assumes only that it is not the placeholder id.
- The `timestamp` field of a message is not modelled, because nothing in the
  handlers reads it.
- React's batching of state updates is not modelled. The model assumes
  that the console renders after each frame, before the next frame is
  handled, so that every `setMessages` updater runs before the next handler.
  The source does not guarantee this. The chunk updater reads
  `currentResponseRef` when React runs it (ChatConsole.tsx:75-76), not when
  the chunk arrives, and `done` clears that ref at once (ChatConsole.tsx:92).
  If a chunk and `done` are both handled before a render, the chunk's
  updater can write `""` into the placeholder, and the finished reply then
  shows empty. `ChatSession.Apply` reads the reply as the handler left it,
  so `ChatSession.ChunksConcatenate` and `ChatSession.Exchange` hold only
  under that assumption. The source updates the last message object in place, inside its
  updater; the model replaces it with an updated copy, so the aliasing of
  that object with the previous message list is not captured.
- Only the latest socket is tracked (`wsRef`). Events from a superseded
  socket, the `close` on unmount, and timers firing after unmount are not
  modelled. The `send` payload is recorded as the message text, not as its
  JSON encoding.
- `JSON.parse` is not modelled. An inbound frame arrives already classified
  as a chunk, done, error, another type, or text that does not parse.
- ChatSession.MalformedOnlyLogged: the log entry carries a given reason
  string, not the JavaScript rendering of the exception.
- Lengths and `substring` count code points, where JavaScript counts UTF-16
  code units. `toLowerCase` is modelled for the ASCII letters only.
- The planning request is synchronous. The answer of the endpoint is a
  parameter (`PlanReply`), so a second `generatePlan` while one is in
  flight cannot interleave. The 1500 ms delay of `executePlan` and the
  loop's awaits are not modelled, so no other handler can run between
  steps. An HTTP reply whose body is not a plan is not modelled.
- ApiKeyModal.Modal.HandleSave: the one-second timer that clears `saved` and
  closes the dialog is not modelled, because it calls a callback of the
  parent.
- The key store's persistence to browser storage is not part of this model.
- `VirtualDisplay`, `MemoryStream` and the page layout are not part of this
  model.
