# EduLlama chat page, modelled in Dafny

EduLlama is a one-page chat client for a locally running Ollama server. This
project models the logic of its chat page (`src/pages/chatPage.jsx`):

- **The word-by-word reveal** of an assistant reply (`ChatMessage`). The reply
  is split on single spaces and empty tokens are dropped. A 50 ms interval
  then appends one token per tick, with one space before every token but the
  first. The tick after the last token hides the cursor and clears the
  interval. A user message is shown at once. Modules `Words` (tokenizing and
  joining, as pure functions) and `Reveal` (class `ChatMessage`: the effect is
  `Start`, one interval firing is `Tick`).
- **The input guard** (`ChatInput`). The text is sent only when `input.trim()`
  is non-empty and the box is enabled; the box is then cleared. Enter without
  Shift does the same as the button. Module `Input`.
- **The conversation controller** (`ChatPage`). It keeps the ordered message
  list, the `isLoading` flag and the selected model. `handleSendMessage` is
  split at its first `await` (the `fetch`): `Submit` appends the user's message, sets the flag and
  issues one request; `Settle` appends exactly one assistant message (the
  reply, or the fixed error text) and clears the flag. The HTTP call is not
  modelled: how it settled is the parameter `Outcome` (`Ok(response)`,
  `HttpNotOk`, `Threw`), which also covers the second `await`
  (`response.json()`: a body that is not JSON is `Threw`). Module `Conversation`, which also wires the input box
  to the page and draws each message with a `ChatMessage`.

What is proved, in short:

- Tokens are non-empty and contain no space.
- `Split` and `Join` undo each other.
- Tokenizing words joined by single spaces gives those words back.
- Joining the tokens of a single-spaced text gives that text back.
- After k ticks the screen shows the first k tokens joined by single spaces.
  Every earlier screen is a prefix of every later one, cut at a word boundary.
- After all tokens, one more tick stops the reveal. A stopped reveal never
  changes again.
- The guard `nextWord !== undefined` always holds.
- The submit guard holds exactly when the box is enabled and holds a
  non-whitespace character.
- The message list is always a run of user/assistant exchanges. A request is
  in flight exactly while `isLoading`, and at most one at a time.
- Settling appends exactly one message and leaves the earlier ones unchanged.

## Model

| member | source | states |
|---|---|---|
| `Words.Split` | src/pages/chatPage.jsx:43 | `split(' ')` yields at least one piece, and no piece contains a space |
| `Words.DropEmpty` | src/pages/chatPage.jsx:43 | `filter(Boolean)` keeps exactly the non-empty strings of its input and never lengthens it |
| `Words.DropEmptyAppend` | src/pages/chatPage.jsx:43 | the filter keeps order: filtering a concatenation is concatenating the filtered parts |
| `Words.Tokenize` | src/pages/chatPage.jsx:43 | every token of `content.split(' ').filter(Boolean)` is non-empty and space-free |
| `Words.SplitJoin` | src/pages/chatPage.jsx:43 | joining the pieces of `split(' ')` with single spaces gives the original text |
| `Words.JoinSplit` | src/pages/chatPage.jsx:43 | splitting space-free pieces joined by single spaces gives the pieces back |
| `Words.TokenizeJoin` | src/pages/chatPage.jsx:43 | tokenizing non-empty, space-free words joined by single spaces gives exactly those words |
| `Words.JoinTokenize` | src/pages/chatPage.jsx:43 | a text with no leading, trailing or doubled space is its tokens joined by single spaces |
| `Words.WordAt` | src/pages/chatPage.jsx:48-49 | indexing the token array yields a word exactly when the index is below its length (`undefined` otherwise) |
| `Words.JoinAppend` | src/pages/chatPage.jsx:50-52 | the joined text of two runs of tokens is the first run's text, one space if both are non-empty, then the second run's text |
| `Words.JoinSnoc` | src/pages/chatPage.jsx:50-52 | appending token k, behind a space when k > 0, to the first k tokens joined gives the first k+1 tokens joined |
| `Words.RevealPrefix` | src/pages/chatPage.jsx:44-54 | the text after j ticks is a prefix of the text after k >= j ticks, followed there by a space and the further tokens |
| `Reveal.ChatMessage.constructor` | src/pages/chatPage.jsx:29-30 | a message starts with empty text, a cursor only for assistant messages, and no interval |
| `Reveal.ChatMessage.Start` | src/pages/chatPage.jsx:33-68 | the old interval is cleared; absent or empty content changes nothing else; an assistant reply restarts from empty text with the cursor on, index 0 and its tokens; a user message shows its content at once without an interval |
| `Reveal.ChatMessage.Tick` | src/pages/chatPage.jsx:46-59 | while tokens remain, appends the next one (space-separated after the first), so the text is the first `currentIndex` tokens joined; after the last, stops the interval and hides the cursor with all tokens shown; a cleared interval changes nothing |
| `Reveal.ChatMessage.RunInterval` | src/pages/chatPage.jsx:44-59 | after n firings the text is the first `currentIndex + n` tokens joined; once past the last token the reveal has stopped with all tokens shown |
| `Input.TrimStart` | src/pages/chatPage.jsx:122 | drops exactly the leading JavaScript whitespace |
| `Input.TrimEnd` | src/pages/chatPage.jsx:122 | drops exactly the trailing JavaScript whitespace |
| `Input.Trim` | src/pages/chatPage.jsx:122 | `trim()` is a slice of the input, everything outside it is whitespace, and it starts and ends with a visible character unless empty |
| `Input.TrimEmptyIffBlank` | src/pages/chatPage.jsx:122 | the trimmed input is empty if and only if every character is whitespace |
| `Input.ShouldSend` | src/pages/chatPage.jsx:121-122 | a submit goes through if and only if the box is enabled and holds a non-whitespace character |
| `Input.ChatInput.constructor` | src/pages/chatPage.jsx:111 | the box starts empty |
| `Input.ChatInput.Type` | src/pages/chatPage.jsx:158-162 | the box holds what was typed, except while it is disabled, when it is unchanged |
| `Input.ChatInput.HandleSubmit` | src/pages/chatPage.jsx:121-126 | when the guard holds, the untrimmed text is handed on and the box cleared; otherwise nothing is sent and the box is unchanged |
| `Input.ChatInput.HandleKeyPress` | src/pages/chatPage.jsx:128-133 | Enter without Shift behaves as `HandleSubmit`; every other key sends nothing and changes nothing |
| `Conversation.Reply` | src/pages/chatPage.jsx:218-240 | the settled message is an assistant message naming the request's model; its content is `data.response` on a 2xx answer and the fixed error text on a non-2xx status or a thrown error |
| `Conversation.UserTurnAlternates` | src/pages/chatPage.jsx:202-204 | appending the user's message to a run of completed exchanges keeps user and assistant messages alternating |
| `Conversation.ReplyTurnAlternates` | src/pages/chatPage.jsx:226-240 | appending the reply to an open exchange keeps user and assistant messages alternating |
| `Conversation.ChatPage.constructor` | src/pages/chatPage.jsx:185-187 | no messages, not loading, model `llama3.2` |
| `Conversation.ChatPage.SelectModel` | src/pages/chatPage.jsx:138-141 | the selected model changes only when no request is in flight; nothing else changes |
| `Conversation.ChatPage.Submit` | src/pages/chatPage.jsx:200-216 | appends exactly one user message with the text, sets `isLoading`, and issues one request with the selected model and the text as prompt |
| `Conversation.ChatPage.Settle` | src/pages/chatPage.jsx:218-243 | appends exactly one reply for the in-flight request's model after the unchanged earlier messages, and clears `isLoading` |
| `Conversation.ChatPage.HandleSendMessage` | src/pages/chatPage.jsx:200-244 | a whole exchange appends the user message then the reply, and leaves the page idle with the same model |
| `Conversation.SendFromInput` | src/pages/chatPage.jsx:290-295 | a blank text or a busy page changes nothing; otherwise the box is cleared and the text submitted with the selected model |
| `Conversation.Render` | src/pages/chatPage.jsx:276-281 | a user message shows its text at once with no cursor; a reply starts revealing from empty text; an absent or empty content shows no text, and an assistant message then keeps its blinking cursor for good |

## Left out

- JSX markup, styling, the "Pensando" animation (lines 6-24) and the auto-scroll effect (lines 191-197): presentation only.
- The HTTP request, `response.json()` and the console logging (lines 208-234): network I/O. How the request settled is the parameter `Outcome` of `Settle`; a body that is not JSON is `Threw`.
- A 2xx answer whose JSON has no `response` field: the code appends it with an undefined content rather than the error text, and the model does the same (`Ok(None)`). Such a message, like an empty reply, shows no text: its effect returns at once (line 35), so `isAnimating` keeps its initial value `true` (line 30) and the blinking cursor (line 101) stays on for good. The model keeps this behaviour (`Conversation.Render`).
- Real timing: the 50 ms period, `setInterval`/`clearInterval` and React's batching. A tick is a call of `Tick`; the cleanup that clears the interval is the first step of `Start`.
- React's deferred state updater (line 50-52): the updater reads `currentIndex` when React runs it, which may be after the increment at line 54. The model chooses the separator by the index of the word being appended.
- StrictMode's double run of effects, and React remounting `ChatMessage` components (they are keyed by list index).
- The list of models in the selector (lines 114-119): `selectedModel` is any string.
- Conversation.ChatPage.Submit: requires that no request is in flight. Its only caller is the input box, which is disabled while `isLoading`. A direct second call in JavaScript would start a second request, which the model does not represent.
