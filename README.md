# Cat chat game: conversation memory and the send cycle

This project models the `AICatGame` controller of a one-page chat game in which
the user talks to "Delilah", a cat persona played by a remote chat-completion
service. What is modelled is the part of the controller that decides anything:

- the conversation history, a list of `{role, content}` turns that starts as a
  single system turn holding the persona prompt and is sent whole with every
  request;
- the send cycle: the typed message is trimmed and ignored when blank; otherwise
  the input is disabled and cleared, a user turn is pushed, and the history is
  cut back to the system turn plus the last 20 turns once it holds more than 21;
- the response: a usable reply is trimmed, pushed as an assistant turn and
  shown; any failure leaves the history alone and shows one of seven canned
  replies followed by ` (API error - using fallback)`; either way the input is
  enabled again.

The files are:

- `text.dfy` (module `Text`): JavaScript's `String.prototype.trim` over the
  ECMAScript white-space and line-terminator characters, with lemmas that the
  result is the middle slice of the input, that only white space is removed,
  that it is empty exactly for all-white-space input, and that it is idempotent.
- `conversation.dfy` (module `Conversation`): turns, request outcomes, the
  persona prompt and canned replies as constants, the history trim, and one
  submission as a function `Step` on the history; `Replay` runs a list of
  submissions and `Transcript` lists every turn they produced.
- `conversation_facts.dfy` (module `ConversationFacts`): what holds across
  submissions. The system turn stays first and is the only system turn. The
  history holds at most 22 turns, and at most 21 after a failure. Each
  submission ends the history with exactly its new turns. After any run from
  page load, the history is the system turn followed by the most recent turns of
  the whole transcript.
- `game.dfy` (module `Game`): the class `CatGame` with the fields
  `history`, `inputEnabled` and `draft` (the message box). Its methods update
  these in place. `Submit` is proved against `Step`. `SendMessage` is proved
  against its first half, `AfterUserTurn`, and `ReceiveResponse` against its
  second half, `AfterResponse`. `Valid()` is the object invariant. It says the
  persona is the first and only system turn, the history holds at most 22
  turns, and, while a request is outstanding (input disabled), the history
  holds at most 21 turns and ends with the user's turn. `SendMessage`,
  `ReceiveResponse`, `Submit` and `PushUserTurn` keep it; `PushUserTurn`
  establishes it whether or not the input is enabled. `SetInputEnabled` (a
  step inside `SendMessage` and `ReceiveResponse`) and
  `InitializeConversationHistory` (called only by the constructor) can each
  break it on their own, as the JavaScript methods can.

The request is an outcome parameter: `NetworkError`, or `Response(status,
content)` where `content` is `choices[0].message.content` when the body carries a
string there. `response.ok` is a 2xx status. The random choice of a canned reply
is a parameter `pick < |CatResponses|`.

How the history length behaves follows from the code as written:

- The comment at game.js:126 says the history keeps the last 20 messages and
  the system prompt. The trim runs only after the user push, though, and not
  after the assistant push at game.js:157-160. So after a successful exchange
  the history can hold 22 turns. It holds at most 21 right after the user push
  and trim, and that is the list every request sends.
- After 25 successful exchanges from page load, the history holds 22 turns, and
  the turn after the system turn is the assistant reply of the 15th exchange.
  `LongSuccessfulRun` states the general case: after n >= 11 successful
  exchanges, the history holds 22 turns and turn 1 is the reply of exchange
  n - 10.
- `slice(-20)` drops turns regardless of role, so the turn after the system turn
  can be an assistant turn.

## Model

| member | source | states |
|---|---|---|
| `Text.TrimStart` | game.js:78 | the result is no longer than the input and does not start with white space |
| `Text.TrimEnd` | game.js:78 | the result is no longer than the input and does not end with white space |
| `Text.Trim` | game.js:78 | `trim()` leaves a string that neither starts nor ends with white space |
| `Text.TrimStartDropsWhitespace` | game.js:78 | the leading trim leaves a suffix of the input and removes only white space |
| `Text.TrimEndDropsWhitespace` | game.js:78 | the trailing trim leaves a prefix of the input and removes only white space |
| `Text.TrimIsSlice` | game.js:78 | the trimmed message is a contiguous slice of the input with only white space before and after it |
| `Text.TrimEmptyIff` | game.js:78-79 | the trimmed message is empty exactly when the input is all white space, so that is the case the guard rejects |
| `Text.TrimIdempotent` | game.js:78 | trimming twice gives the same result as trimming once |
| `Text.IsWhitespace` | game.js:78 | the characters `trim()` removes: the ECMAScript WhiteSpace and LineTerminator code points; the `Text.Trim*` lemmas state what is done with them |
| `Conversation.CatSystemPrompt` | game.js:27-37 | the persona prompt, character for character; `Game.CatGame.constructor` states that it is the only turn at page load |
| `Conversation.CatResponses` | game.js:16-24 | the seven canned replies, character for character; `Conversation.FallbackText` states that the fallback text is one of them |
| `Conversation.FallbackMarker` | game.js:171 | the text appended to a canned reply; `Conversation.FallbackText` states that the fallback text ends with it |
| `Conversation.IsOk` | game.js:149 | `response.ok`: a status from 200 to 299; `Conversation.ReplyText` states that only such a status gives a reply |
| `Conversation.AfterUserTurn` | game.js:121-133 | the user push followed by the trim; `ConversationFacts.AfterUserTurnShape` and `ConversationFacts.PushKeepsRecent` state what it leaves |
| `Conversation.AfterResponse` | game.js:153-160 | one assistant turn with the reply on success and nothing on failure; `ConversationFacts.ReplyStepShape` and `ConversationFacts.FailureStepShape` state what it leaves |
| `Conversation.Step` | game.js:77-160 | one whole submission on the history; `ConversationFacts.StepPreservesShape` and `ConversationFacts.StepKeepsRecent` state what it keeps, and `Game.CatGame.Submit` is proved against it (`SendMessage` and `ReceiveResponse` against its two halves, `AfterUserTurn` and `AfterResponse`) |
| `Conversation.TrimHistory` | game.js:126-133 | the trimmed history has min(length, 21) turns, keeps turn 0, and its other turns are the most recent turns of the input, in order |
| `Conversation.ReplyText` | game.js:149-154 | a reply exists exactly when the status is 2xx and the body has a content string, and it is that string trimmed; any other outcome is a failure |
| `Conversation.FallbackText` | game.js:170-171 | the failure text is one of the seven canned replies followed by ` (API error - using fallback)` |
| `Conversation.DisplayText` | game.js:153-171 | the shown text is the trimmed reply on success, and a canned reply with the fallback marker on failure |
| `ConversationFacts.TrimHistoryIdempotent` | game.js:127-133 | trimming an already trimmed history changes nothing |
| `ConversationFacts.AfterUserTurnShape` | game.js:121-133 | after the user push and trim, the persona turn is still first and alone, there are 2 to 21 turns, and the last one is the new user turn |
| `ConversationFacts.ReplyStepShape` | game.js:121-160 | a successful submission keeps the history well formed, with at most 22 turns, ending with its user turn and then its assistant turn |
| `ConversationFacts.FailureStepShape` | game.js:121-133 | a failed submission keeps the history well formed, with at most 21 turns, ending with its user turn and adding no assistant turn |
| `ConversationFacts.StepPreservesShape` | game.js:77-160 | a blank message changes nothing; any submission keeps turn 0, keeps it the only system turn, and leaves at most 22 turns (21 after a failure); the history ends with exactly the turns the submission adds |
| `ConversationFacts.ReplayInvariant` | game.js:121-160 | across any run of submissions, turn 0 is unchanged and the only system turn, and there are at most 22 turns |
| `ConversationFacts.PushKeepsRecent` | game.js:121-133 | pushing a user turn onto the first turn plus the n most recent transcript turns gives the first turn plus the n + 1 most recent turns, or the 20 most recent once the trim fires |
| `ConversationFacts.ReplyKeepsRecent` | game.js:121-160 | after a successful submission, the history is the first turn plus the most recent min(transcript length, 21) turns |
| `ConversationFacts.FailureKeepsRecent` | game.js:121-171 | after a failed submission, the history is the first turn plus the most recent min(transcript length, 20) turns |
| `ConversationFacts.StepKeepsRecent` | game.js:77-171 | one submission, of any kind, moves the history from one "first turn plus most recent turns" form to the next |
| `ConversationFacts.ReplayKeepsRecentTurns` | game.js:45-171 | after any run from a single system turn, the history is that turn followed by the `Kept(subs)` most recent transcript turns; at most 21 turns are kept, and fewer than 20 only while nothing has been dropped |
| `ConversationFacts.SuccessfulTranscript` | game.js:121-160 | when every submission succeeds, the transcript is user turn, assistant turn, user turn, and so on, one pair per submission with the trimmed texts |
| `ConversationFacts.LongSuccessfulRun` | game.js:121-160 | after 11 or more successful exchanges from page load there are 22 turns, turn 0 is the system turn, and turn 1 is the assistant reply of the eleventh-newest exchange |
| `ConversationFacts.ShortRunKeepsEverything` | game.js:127 | within the first ten submissions nothing is dropped: the history is the system turn followed by the whole transcript |
| `ConversationFacts.HelloScenario` | game.js:121-160 | "hello" answered by a 200 response with content " Meow!\n" leaves system, user "hello", assistant "Meow!" |
| `ConversationFacts.ServerErrorScenario` | game.js:149-171 | "  hi " answered by a 500 response leaves system and user "hi", with no assistant turn |
| `ConversationFacts.BlankScenario` | game.js:78-79 | a message of one space, a tab and a newline leaves the history as it was |
| `Game.CatGame.Valid` | game.js:45-182 | the object invariant: the persona is the first and only system turn, at most 22 turns, and while the input is disabled at most 21 ending with the user turn; `SendMessage`, `ReceiveResponse`, `Submit` and `PushUserTurn` keep it, while `SetInputEnabled` (a step inside `SendMessage` and `ReceiveResponse`) and `InitializeConversationHistory` (called only by the constructor) can each break it on their own |
| `Game.CatGame.constructor` | game.js:39-53 | at page load the history is exactly the persona system turn and the object invariant holds; the input starts enabled and empty, which comes from the page markup (see Left out) |
| `Game.CatGame.InitializeConversationHistory` | game.js:45-53 | the history becomes exactly one system turn holding the persona prompt |
| `Game.CatGame.SetInputEnabled` | game.js:177-182 | the input-enabled flag becomes the argument |
| `Game.CatGame.SetDraft` | game.js:78 | while the box is enabled, the user's typing leaves it holding the typed text |
| `Game.CatGame.PushUserTurn` | game.js:120-133 | the in-place push and trim leave `history` equal to `AfterUserTurn` of the old history, and the request carries that history; from any well-formed history starting with the persona turn it leaves at most 21 turns ending with the user turn, so the object invariant holds whatever the input state |
| `Game.CatGame.SendMessage` | game.js:77-97 | a blank message changes nothing and sends nothing; otherwise the input is disabled and cleared, the history is the old one plus the trimmed user turn, trimmed, and that is what is sent; the invariant is kept |
| `Game.CatGame.ReceiveResponse` | game.js:149-174 | the history gains the assistant turn exactly on success; the shown text is the reply or the fallback; the input is enabled again on both paths; the invariant is kept |
| `Game.CatGame.Submit` | game.js:77-174 | one whole submission moves the history by `Step`, leaves the input enabled, and clears the box exactly when the message was not blank |

## Left out

- DOM work: creating message bubbles (`addMessage`), the typing indicator,
  scrolling, the welcome message and opacity styling. This is presentation
  only. The user's own bubble is not modelled either.
- The `fetch` call: the URL, the headers, the API key, the JSON body with
  the model name, `max_tokens` and `temperature`, and `response.json()`.
  These are network I/O, so the result arrives as the `Outcome` parameter.
- `Math.random()`: this is floating point, so the model takes the pick as a
  parameter with `pick < |CatResponses|`.
- async/await: `getCatResponse` waits twice, at `await fetch(...)`
  (game.js:135) and at `await response.json()` (game.js:153). The model splits
  one submission at the first wait. `SendMessage` covers the work before the
  request and `ReceiveResponse` the work after it. The second wait is folded
  into the `Outcome` parameter, whose `content` is `None` when the body does
  not parse. No user input can arrive between the two waits, because the input
  is disabled. `Submit` runs both halves in sequence.
- `checkAPIKey` and console logging: these are diagnostics only.
- `toLocaleTimeString`: this is a locale library call.
- Event wiring (`initializeEventListeners`): the browser calls `sendMessage`
  on a click of Send or on Enter. `SetDraft` stands for the user typing into
  the message box.
- Game.CatGame.SendMessage: requires the input to be enabled, because the
  browser delivers no click and no keypress from a disabled control. The model
  therefore does not cover a second submission while a request is outstanding.
- Game.CatGame.Submit: has the same requirement, for the same reason.
- The initial state of the message box: game.js:2-43 never sets whether the
  input is enabled or what it holds. Both come from the page markup, which is
  not part of this model, so the constructor takes them as enabled and empty.
- UTF-16: JavaScript strings are UTF-16 code units, while the model uses
  Unicode scalar values. Every white-space character is a single code unit,
  so `trim()` removes the same characters either way.
