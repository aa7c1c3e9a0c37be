# ImageAI chat core in Dafny

This project models the two pieces of state logic in the ImageAI client.

- **The chat panel** (`ChatInterface.tsx`). It has three state cells: the message log `messages`, the text box `inputValue` and the busy flag `isGenerating`. `handleSubmit` refuses a blank input and refuses any submit while an image is being generated. Otherwise it logs the prompt as a `user` message, clears the text box and calls `generateImage`. That call raises the busy flag and waits. Then it logs an `ai` message that quotes the prompt and carries an image URL, and it lowers the flag. `handleSuggestionClick` and the text box's `onChange` only overwrite the input.
- **The sidebar's chat history** (`Sidebar.tsx`). `chatHistory` starts empty. An effect that runs on mount fills it with three sample entries. `deleteChat(id)` replaces it with an order-preserving filter that drops every entry with that id.

Files:

- `wrappers.dfy`: the `Option` type, for the optional `imageUrl`.
- `text.dfy`: ECMAScript's `String.prototype.trim`, on which the submit guard depends. It is used with its exact white-space set (WhiteSpace and LineTerminator code points). `TrimEmptyIffBlank` links a trimmed-empty input to "every character is white space".
- `chat.dfy`: module `Chat`. First, each handler is a pure transition on a `ChatState` value. `generateImage` is split into `BeginStep`, its synchronous part before the wait, and `CompleteStep`, its continuation after the wait. The prompt that the waiting call captured is kept in the state as `pendingPrompt`. Next comes the invariant `WellFormed`: the log alternates prompt and answer, each answer quotes the prompt just before it, and a trailing unanswered prompt exists exactly while a generation is in flight. Then come lemmas over whole runs (sequences of `Event`s). Last, class `ChatInterface` holds the same state in mutable fields. Its methods are proved to perform exactly those transitions, and every method ensures `Valid()`. `Begin` is called by `Submit` halfway through its update, so instead of `Valid()` it requires that the state it produces be well formed.
- `history.dfy`: module `History`. `WithoutChat` is the filter. The lemmas cover removal, retention, position and order, the absent-id case, idempotence, shrinking and commutation. Class `Sidebar` holds `chatHistory`, and `DeleteChat` reassigns it.

Constants: `Chat.Initial` is the mount state (ChatInterface.tsx:19-21). `Chat.Suggestions` is the six-prompt list (ChatInterface.tsx:24-31). `Chat.AnswerPrefix` and `Chat.AnswerSuffix` are the fixed parts of the answer template (ChatInterface.tsx:53). `History.MockHistory` is the sample history (Sidebar.tsx:25-44). The rows for `ChatInterface.constructor`, `SuggestionIsSubmittable`, `AnswerContent`, `MockHistoryIds` and `Sidebar.LoadHistory` state what is proved about them.

Modelling choices:

- Clock values are opaque parameters supplied by the caller. The message `id` is a string and the `timestamp` is a `nat`. They come from `Date.now()` and `new Date()`, so nothing makes them unique or increasing, and the model asserts neither.
- The generated image URL is a parameter of `Complete`, required to be non-empty. The source always supplies one fixed non-empty URL.
- React state updates are treated as visible to the next handler. Each event runs on one logical thread. The 3-second wait is the gap between `Begin` and `Complete`, and any number of other events may happen in that gap.
- `Complete` requires a generation in flight (`isGenerating`), because the continuation exists only after `Begin` has run. In the run model this is the `Enabled` condition on `GenerationDone`.
- The mocked generation always succeeds. The code has no failure path, no rejection result and no way to clear the log, so the model has none either.

## Model

| member | source | states |
|---|---|---|
| Text.TrimStart | ChatInterface.tsx:64 | the result is a suffix of the input, everything cut is white space, and the result does not start with white space |
| Text.TrimEnd | ChatInterface.tsx:64 | the result is a prefix of the input, everything cut is white space, and the result does not end with white space |
| Text.Trim | ChatInterface.tsx:64 | `trim()` is no longer than its input and neither starts nor ends with white space; `TrimIsMiddleSlice` adds that it is the middle slice between blank ends |
| Text.TrimIsMiddleSlice | ChatInterface.tsx:64 | what `trim()` keeps is a contiguous slice of the input, with only white space before it and only white space after it |
| Text.TrimEmptyIffBlank | ChatInterface.tsx:64 | `!inputValue.trim()` holds exactly when every character of the input is white space |
| Chat.QuotedPrompt | ChatInterface.tsx:53 | reading a prompt back from an answer's text returns a prompt whose answer text is exactly that text |
| Chat.AnswerContent | ChatInterface.tsx:53 | the answer text is the fixed lead-in, then the prompt verbatim, then a closing quote; `AnswerQuotesPrompt` and `QuotedPrompt` give its inverse |
| Chat.UserMessage | ChatInterface.tsx:66-71 | the logged prompt comes from the user, holds the text as typed and has no image |
| Chat.AnswerMessage | ChatInterface.tsx:50-56 | the logged answer comes from the assistant, quotes the prompt (read back by `QuotedPrompt`) and carries the image URL |
| Chat.AcceptsSubmit | ChatInterface.tsx:64 | the submit guard (a non-empty trimmed input, no generation running) holds exactly when the input is not blank and no generation is in flight |
| Chat.BeginStep | ChatInterface.tsx:41-42 | the start of `generateImage` raises the busy flag and records the prompt, and keeps the log and the input; `SubmitStep` and `ChatInterface.Begin` use it |
| Chat.SubmitStep | ChatInterface.tsx:62-78 | `handleSubmit`: the log only grows at its end, by at most one message; specified in full by `SubmitBlankIsNoOp`, `SubmitWhileGeneratingIsNoOp`, `SubmitAccepted`, `SubmitGrowsLogIff` and `SubmitPreservesWellFormed` |
| Chat.CompleteStep | ChatInterface.tsx:47-59 | the continuation of `generateImage` appends exactly one message, lowers the flag and keeps the input; specified in full by `CompleteAnswers` (the exact appended message) and `CompletePreservesWellFormed` |
| Chat.InputStep | ChatInterface.tsx:80-82 | `handleSuggestionClick` (and the `onChange` at line 185) sets the input and changes neither the log, the busy flag nor the pending prompt; `StepPreservesWellFormed` and `SuggestionIsSubmittable` use it |
| Chat.AnswerQuotesPrompt | ChatInterface.tsx:53 | the answer text contains the prompt verbatim after the fixed prefix, and the prompt reads back unchanged (round trip) |
| Chat.SubmitBlankIsNoOp | ChatInterface.tsx:64 | a submit with an empty or whitespace-only input leaves messages, input and busy flag all unchanged |
| Chat.SubmitWhileGeneratingIsNoOp | ChatInterface.tsx:64 | a submit while generating leaves the whole state unchanged, whatever the input |
| Chat.SubmitAccepted | ChatInterface.tsx:64-77 | an accepted submit appends exactly one message at the end (type user, the untrimmed input as content, no image), clears the input, raises the busy flag and passes the same text to the generation |
| Chat.SubmitGrowsLogIff | ChatInterface.tsx:64-73 | the log changes on submit if and only if the input is non-blank and no generation is in flight |
| Chat.CompleteAnswers | ChatInterface.tsx:50-59 | completion appends exactly one message, `AnswerMessage` with the supplied id, timestamp and image URL: an ai message that quotes the submitted prompt and carries a non-empty image URL, lowers the busy flag and leaves the input alone |
| Chat.SuggestionIsSubmittable | ChatInterface.tsx:24-31 | each of the six `Suggestions`, once placed in the input of an idle panel, passes the submit guard |
| Chat.LogPromptPreservesWellFormed | ChatInterface.tsx:73 | appending a non-blank user prompt to an idle well-formed log gives a well-formed busy state |
| Chat.SubmitPreservesWellFormed | ChatInterface.tsx:62-78 | submit, accepted or not, keeps the prompt/answer alternation invariant |
| Chat.CompletePreservesWellFormed | ChatInterface.tsx:41-60 | completion keeps the invariant: the answer fills the position right after its prompt |
| Chat.StepPreservesWellFormed | ChatInterface.tsx:41-82 | every enabled event (submit, completion, suggestion click, typing) keeps the invariant |
| Chat.RunPreservesWellFormed | ChatInterface.tsx:41-82 | the invariant holds after any schedulable sequence of events |
| Chat.ReachableIsWellFormed | ChatInterface.tsx:19-21 | every state reachable from the freshly mounted panel (empty log, empty input, idle) is well formed |
| Chat.AnswerFollowsItsPrompt | ChatInterface.tsx:58 | in a reachable log every ai message sits right after, so at a strictly larger index than, the user prompt it quotes |
| Chat.PromptIsAnsweredNext | ChatInterface.tsx:73-77 | every user prompt is answered by the next message, or it is the last message and its generation is still in flight |
| Chat.RunExtendsLog | ChatInterface.tsx:58 | any run only appends: the earlier log is a prefix of the later one, so no entry is edited or removed |
| Chat.RunConcat | ChatInterface.tsx:41-82 | running two event sequences one after the other is the same as running their concatenation |
| Chat.EarlierLogIsPrefix | ChatInterface.tsx:73 | the log at any earlier point of a run is a prefix of the log at its end |
| Chat.BusyRunKeepsLog | ChatInterface.tsx:64 | while a generation is in flight, any sequence of submits and input changes (say, typing "dogs" and submitting while "cats" is generating) adds nothing to the log and keeps the pending prompt |
| Chat.SubmitThenAnswer | ChatInterface.tsx:73-77 | a prompt accepted at log length n is logged at index n, and the answer its completion produces lands at index n + 1, even with other events in between |
| Chat.ChatInterface.constructor | ChatInterface.tsx:19-21 | the panel mounts in `Initial` (an empty log, an empty input, no generation in flight) and is `Valid()` |
| Chat.ChatInterface.Submit | ChatInterface.tsx:62-78 | `handleSubmit` performs `SubmitStep` and keeps `Valid()`; a blank or busy submit changes nothing, and an accepted one appends the user message, clears the input and raises the flag |
| Chat.ChatInterface.Begin | ChatInterface.tsx:41-42 | the synchronous part of `generateImage` performs `BeginStep`: it raises the busy flag, remembers the prompt and touches nothing else; called where the resulting state is well formed (as `Submit` ensures), it leaves the panel `Valid()` |
| Chat.ChatInterface.Complete | ChatInterface.tsx:47-59 | the continuation appends the ai answer to the remembered prompt, lowers the flag and keeps `Valid()` |
| Chat.ChatInterface.ApplySuggestion | ChatInterface.tsx:80-82 | `handleSuggestionClick` sets the input to the suggestion and changes neither the log nor the busy flag |
| Chat.ChatInterface.EditInput | ChatInterface.tsx:185 | typing sets the input and changes neither the log nor the busy flag |
| History.MockHistoryIds | Sidebar.tsx:25-45 | the sample history holds three entries, with ids "1", "2" and "3" in that order |
| History.WithoutChat | Sidebar.tsx:57-59 | after deleting an id no entry has it, every entry with another id is kept, nothing new appears, and the length does not grow |
| History.WithoutChatConcat | Sidebar.tsx:58 | the filter distributes over concatenation |
| History.WithoutChatPosition | Sidebar.tsx:58 | a kept entry lands at the index equal to the number of kept entries before it |
| History.WithoutChatKeepsOrder | Sidebar.tsx:58 | of two kept entries, the earlier one stays at the smaller index: the survivors keep their relative order |
| History.WithoutAbsentChat | Sidebar.tsx:58 | deleting an id that no entry has leaves the list unchanged |
| History.WithoutChatIdempotent | Sidebar.tsx:58 | deleting the same id twice gives the same list as deleting it once |
| History.WithoutChatShrinksIff | Sidebar.tsx:58 | the list gets strictly shorter if and only if some entry has the id |
| History.WithoutChatCommutes | Sidebar.tsx:58 | deleting two ids in either order gives the same list |
| History.DeleteSampleEntry | Sidebar.tsx:25-59 | deleting "2" from the sample history leaves "1" and "3", and deleting it again changes nothing |
| History.Sidebar.constructor | Sidebar.tsx:21 | the history starts empty |
| History.Sidebar.LoadHistory | Sidebar.tsx:23-46 | the mount effect sets the history to the three sample entries of `MockHistory` |
| History.Sidebar.DeleteChat | Sidebar.tsx:57-59 | `deleteChat(id)` replaces the history by `WithoutChat` of the old one: no entry with the id remains, all others stay, and it gets no longer |

## Left out

- The 3-second `setTimeout` and the `async`/`await` scheduling (ChatInterface.tsx:45) are left out. The wait is the gap between `Begin` and `Complete`; there is no real concurrency.
- `Date.now()` and `new Date()` (ChatInterface.tsx:51, :55, :67, :70) are left out. They are clock reads, so their values are caller-supplied parameters.
- The constant mock image URL (ChatInterface.tsx:48) is left out. The model only needs some non-empty URL, which the caller of `Complete` supplies.
- Scrolling (`scrollToBottom`, `useEffect`, `messagesEndRef`), the form's `e.preventDefault()` (ChatInterface.tsx:63) and all JSX rendering and styling are left out, since they are DOM behaviour and presentation that no part of the state depends on. The rendering also decides when handlers can fire: the suggestion buttons exist only while the log is empty, and the text box and send button are disabled while generating. These UI conditions are not modelled; the handlers are modelled as written, without those conditions.
- Logout and navigation (`useAuth`, `logout`, `navigate`, Sidebar.tsx:19-20, :48-55) are left out. They call into an authentication library and a router that are not part of this model.
- The "New Chat" button (Sidebar.tsx:76) is left out because it has no handler.
- `SplashScreen.tsx`, `App.tsx`, `HamburgerMenu.tsx` and `ChatPage.tsx` are left out. They hold timers, router configuration, CSS selection and a layout toggle, with no core state logic.
