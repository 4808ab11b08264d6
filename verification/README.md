# Chat session lifecycle, modelled in Dafny

This project models the stateful core of a small browser chat widget and the
relay server behind it. The server forwards each user message to a hosted
language model and keeps the conversation in memory.

- **Server conversation store** (`backend/server.js`). A process-wide map goes
  from session id to the ordered transcript of `{role, content}` turns.
  - `POST /api/chat` validates the message and picks a key. The key is the
    client's id when that id is truthy, and a freshly generated
    `session_<ms>_<base-36 suffix>` id otherwise.
  - The round pushes the user turn onto the stored transcript and sends the
    whole transcript to the model.
  - On success it appends the reply, keeps the last 20 turns and stores them.
  - On failure it answers 401, 429 or 500.
  - `DELETE /api/chat/:id` answers 200 or 404.
  - The health check reports the number of sessions.
  - An hourly sweep deletes every session whose id holds a timestamp more
    than one hour old.
- **Chat page** (`frontend/app.js`). The page keeps two variables: the
  current conversation id and whether a reply is awaited. The submit and
  clear handlers change them. `formatTime` renders the `HH:MM` stamp shown
  under each message.

Files:

- `js_text.dfy` (module `JsText`) gives the JavaScript built-ins the core
  relies on, written out: `trim`, `split` and `join` on one character, the
  decimal rendering of a non-negative integer, `padStart`, and `parseInt`
  with no radix. `parseInt` skips white space, reads a sign, treats a
  `0x`/`0X` prefix as base 16 and reads the longest run of digits. It gives
  `NaN` (here `None`) when there is no digit.
- `session_ids.dfy` (module `SessionIds`) holds the id generator and the
  parse of the timestamp back out of an id.
- `conversation_store.dfy` (module `ConversationStore`) holds the server.
  `Round`, `Cleared` and `Swept` are functions that say what each operation
  does to the whole map. The class `ConversationStore` keeps the map in its
  `sessions` field and updates it step by step; each method is proved to
  agree with its function. The lemmas state the server's promises about
  those functions.
- `chat_client.dfy` (module `ChatClient`) holds the page state as the class
  `ChatPage`, and `FormatTime`.

The clock (`Date.now()`), the random number behind an id suffix and whether
`GITHUB_TOKEN` is set are parameters. So is the result of the model call,
written `Completed(content)` or `Failed(status)`. In the client, the `fetch`
results and the answer to the confirm dialog are parameters too.

The model keeps three behaviours of the code that differ from what the
service is evidently meant to do: keep at most 20 turns per conversation at
all times, reuse an id only when the store knows it, and expire every
session after an hour.

- A truthy client id is used as the key even when the store does not know
  it, so an unknown id starts a new conversation under that id.
- On failure, the user turn stays in an existing session, and that session is
  not trimmed. The push lands on the array that is already in the map. So
  "at most 20 turns" holds only right after a successful round, and repeated
  failures grow a transcript past 20 (`FailureGrowsPastWindow`). A brand-new
  session is not stored by a failed round, so its first message is lost.
- The sweep deletes only keys whose field 1 parses to a number below
  `now - 3600000`. A key with no `_`, or with no digits in its field 1,
  parses to `NaN` and is never swept.

## Model

| member | source | states |
|---|---|---|
| `JsText.IsTruthy` | backend/server.js:38-40 | the `!message` and `conversationId ||` tests: a string is truthy unless missing or empty; `MissingMessageRejected` and `SessionKeyChoice` use it |
| `SessionIds.RandomSuffix` | backend/server.js:32 | `Math.random().toString(36).substr(2, 9)` is at most nine base-36 digits (`0-9a-z`) of the random fraction, in order, and holds no `_` |
| `SessionIds.GenerateSessionId` | backend/server.js:31-33 | a generated id starts with `session` and splits on `_` into exactly the prefix, the decimal timestamp and the suffix |
| `SessionIds.IdTimestamp` | backend/server.js:96 | `parseInt(key.split('_')[1])`, with `NaN` as no value; `GeneratedIdTimestamp` shows it reads back a generated id's creation time, `NoSeparatorNoTimestamp` and `NoDigitsNoTimestamp` when it is `NaN` |
| `SessionIds.GeneratedIdTimestamp` | backend/server.js:96 | `parseInt(id.split('_')[1])` of a generated id gives back its creation time |
| `SessionIds.NoSeparatorNoTimestamp` | backend/server.js:96 | a key with no `_` yields `NaN` as its timestamp |
| `SessionIds.NoDigitsNoTimestamp` | backend/server.js:96 | any key whose field 1 exists and holds no decimal digit yields `NaN` as its timestamp |
| `ConversationStore.SessionKey` | backend/server.js:40 | `conversationId || generateSessionId()` is never empty; `SessionKeyChoice` states which of the two it is |
| `ConversationStore.SessionKeyChoice` | backend/server.js:40 | the key is the client id whenever that id is truthy, known or not; otherwise it is a fresh `session_` id whose timestamp reads back as `now` |
| `ConversationStore.ReplyText` | backend/server.js:54 | `content?.trim() || 'No response'`; `ReplyTextIsTrimmedContent` states what it gives |
| `ConversationStore.ReplyTextIsTrimmedContent` | backend/server.js:54 | the reply is the model's content without surrounding white space, or `No response` when the content is missing or blank; it is never empty |
| `ConversationStore.FailureStatus` | backend/server.js:62-66 | an upstream error answers 401 exactly for upstream 401, 429 exactly for 429, and 500 for anything else, including no response |
| `ConversationStore.Window` | backend/server.js:57 | `if (history.length > 20) history = history.slice(-20)`; `WindowIsRecentSuffix` and `WindowAfterWindow` state what it keeps |
| `ConversationStore.WindowIsRecentSuffix` | backend/server.js:57 | the trim keeps `min(n, 20)` turns, and they are the last ones, in their original order |
| `ConversationStore.WindowAfterWindow` | backend/server.js:57 | trimming after every append keeps the same turns as trimming the whole transcript once |
| `ConversationStore.Round` | backend/server.js:36-66 | one `/api/chat` round on the whole map; `MissingMessageRejected`, `OutboundIsTranscriptPlusMessage`, `SuccessfulRound`, `FailedRound`, `FailureGrowsPastWindow`, `ReplyIdResumesSession` and `SuccessKeepsRecentWindow` state what it does, and `ConversationStore.Chat` is proved to perform it |
| `ConversationStore.Cleared` | backend/server.js:75-80 | the delete handler on the whole map; `ClearRemovesExactlyThatKey` and `ClearCount` state what it does |
| `ConversationStore.Expired` | backend/server.js:96-97 | `timestamp < oneHourAgo` for one key, false for `NaN`; `GeneratedSessionExpiry` and `KeyWithoutSeparatorNeverSwept` state when it holds |
| `ConversationStore.Swept` | backend/server.js:94-98 | the map left by one sweep; `SweepKeepsExactlyUnexpired` states which keys stay |
| `ConversationStore.ConversationStore.constructor` | backend/server.js:30 | the store starts empty |
| `ConversationStore.ConversationStore.Chat` | backend/server.js:36-67 | the handler leaves the map, the response and the transcript sent to the model exactly as `Round` describes |
| `ConversationStore.ConversationStore.Clear` | backend/server.js:73-81 | the delete handler leaves the map and the status exactly as `Cleared` describes |
| `ConversationStore.ConversationStore.ActiveConversations` | backend/server.js:87 | the health count is the number of keys in the store |
| `ConversationStore.ConversationStore.SweepExpired` | backend/server.js:93-99 | the loop visits every key once, deleting as it goes, and ends with exactly `Swept` of the map it started from |
| `ConversationStore.MissingMessageRejected` | backend/server.js:37-38 | the answer is 400 exactly when the message is missing or empty, and then the store is unchanged |
| `ConversationStore.OutboundIsTranscriptPlusMessage` | backend/server.js:41-48 | the model is called exactly when the message is present and the token is set, and it receives the stored transcript (or nothing) followed by the new user turn |
| `ConversationStore.SuccessfulRound` | backend/server.js:54-60 | after a success, the reply names the session and carries the reply text; the key is added if new; the session holds the last `min(n, 20)` turns of prior + user turn + reply, in order; other sessions are unchanged |
| `ConversationStore.FailedRound` | backend/server.js:41-66 | a missing token answers 500; an upstream error answers its mapped status; an existing session keeps the user turn untrimmed; no key is added; other sessions are unchanged |
| `ConversationStore.FailureGrowsPastWindow` | backend/server.js:41-57 | a session holding 20 turns holds 21 after a failed round |
| `ConversationStore.ReplyIdResumesSession` | backend/server.js:40-60 | the id of a successful reply is stored and truthy; sent back, it selects the same session, whose stored transcript leads the next outbound list |
| `ConversationStore.SuccessKeepsRecentWindow` | backend/server.js:55-58 | if a session holds the last 20 turns of its conversation, it still does after a successful round |
| `ConversationStore.ClearRemovesExactlyThatKey` | backend/server.js:73-81 | the status is 200 exactly when the key is present and 404 otherwise; afterwards the key is absent, and every other key and transcript is as before |
| `ConversationStore.ClearCount` | backend/server.js:75-87 | the health count drops by exactly one when a present session is cleared, and is unchanged on 404 |
| `ConversationStore.SweepKeepsExactlyUnexpired` | backend/server.js:93-99 | the sweep keeps exactly the keys whose parsed timestamp is not below `now - 3600000`, with their transcripts untouched; a second sweep at the same time removes nothing |
| `ConversationStore.GeneratedSessionExpiry` | backend/server.js:94-97 | a session with a generated id survives a sweep iff it was created no earlier than one hour before the sweep |
| `ConversationStore.KeyWithoutSeparatorNeverSwept` | backend/server.js:96-97 | a key without `_` gives `NaN`, so no sweep ever removes it |
| `ChatClient.ChatPage.constructor` | frontend/app.js:12-13 | the page starts with no conversation id and nothing in flight |
| `ChatClient.ChatPage.Submit` | frontend/app.js:60-82 | a blank input, or one typed while a reply is awaited, sends nothing and changes nothing; otherwise the trimmed message is sent with the current id and the page waits |
| `ChatClient.ChatPage.Settle` | frontend/app.js:84-103 | a delivered reply makes the page adopt the server's id; a non-ok status, an unreadable body or a network error keeps the id; waiting ends in every case |
| `ChatClient.ChatPage.ClearChat` | frontend/app.js:155-173 | a cancel changes nothing; otherwise a `DELETE` is sent only for a truthy id, and the id is dropped unless that `DELETE` rejects |
| `ChatClient.FormatTime` | frontend/app.js:213-218 | the stamp has five characters: two digits, a colon, two digits |
| `ChatClient.TwoDigits` | frontend/app.js:214-217 | `n.toString().padStart(2, '0')`; `TwoDigitsChars` and `TwoDigitsParse` state which two digits it gives and that they read back |
| `ChatClient.TwoDigitsChars` | frontend/app.js:214-217 | below 100, `toString().padStart(2, '0')` gives the tens digit (0 if none) and the units digit |
| `ChatClient.TwoDigitsParse` | frontend/app.js:214-217 | `parseInt` reads any padded number below 100 back as that number |
| `ChatClient.FormatTimeRoundTrip` | frontend/app.js:213-218 | splitting the stamp at `:` and parsing both fields gives back the hour and the minute |
| `JsText.Trim` | frontend/app.js:63 | the result has no white space at either end, and it is empty exactly when the input is all white space; `TrimIsMiddle` ties it to the input |
| `JsText.TrimIsMiddle` | frontend/app.js:63 | the trimmed string is the stretch of the input between its leading and its trailing white space, which it drops and nothing else |
| `JsText.Split` | backend/server.js:96 | `split` gives at least one field, and no field contains the separator |
| `JsText.JoinSplit` | backend/server.js:96 | joining the fields of a split with the separator gives back the string |
| `JsText.SplitJoin` | backend/server.js:96 | splitting the join of separator-free fields gives back exactly those fields |
| `JsText.DecimalString` | backend/server.js:32 | a number is rendered as decimal digits with no leading zero, and as a single digit exactly below 10 |
| `JsText.DecimalStringValue` | backend/server.js:32 | the rendered digits denote the number |
| `JsText.PadStart` | frontend/app.js:214 | the padded string is as long as the width, or as the input if that is longer |
| `JsText.PadStartKeepsEnd` | frontend/app.js:214 | padding puts only filler characters in front and keeps the input at the end |
| `JsText.ParseInt` | backend/server.js:96 | `parseInt(s)` with no radix, `NaN` as no value; `ParseIntDecimal`, `ParseIntDigits` and `ParseIntNoDigits` state what it reads |
| `JsText.ParseMagnitude` | backend/server.js:96 | `parseInt` after white space and sign: a `0x` prefix or the longest run of decimal digits; `ParseIntDigits` and `ParseIntNoDigits` state what it reads |
| `JsText.ParseIntDecimal` | backend/server.js:96 | `parseInt` reads back any non-negative integer rendered in decimal |
| `JsText.ParseIntDigits` | backend/server.js:96 | `parseInt` reads a non-empty run of decimal digits, leading zeros included, as the number the digits denote |
| `JsText.ParseIntNoDigits` | backend/server.js:96 | a string without any decimal digit parses to `NaN` |

## Left out

- Express wiring is not modelled: `cors`, the JSON body parser, static file serving, `app.listen` and the console logging. Each handler is modelled from the point where it holds `req.body` or `req.params`.
- The HTTP call to the model is not modelled. That covers its URL, the model name, temperature 0.7, `max_tokens` 500, the 30-second timeout and the authorization header. Only its outcome is a parameter. A `content` that is present but not a string makes `trim` throw, and that case ends like `Failed(None)` (500).
- `message` and `conversationId` are modelled as optional strings, falsy when missing or empty. Other JSON values (numbers, objects) in those fields are not modelled.
- Concurrency is not modelled. Each chat round is atomic here. In the server, another request, a `DELETE` or the sweep can run between the push and the final `set`. The `set` then stores the transcript again.
- The `setInterval` schedules are not modelled. `SweepExpired` is the body of one sweep, run at a given `now`.
- Numbers are exact integers. JavaScript numbers are doubles, so `parseInt` of a digit run beyond 2^53 would round. Millisecond timestamps stay far below that.
- `Math.random().toString(36)` is modelled by the base-36 digits it prints after `0.`, not by the conversion from a double.
- The health check's `status` and ISO timestamp are not modelled; only its count is.
- On the page, these are not modelled: drawing messages, the typing indicator, the send button's `disabled`, textarea resizing, the error toast and its timeout, scrolling, the suggestion chips, the Enter key (it dispatches the same submit) and `location.reload()` after a clear. `confirm` and the outcomes of `fetch` are parameters.
- `ChatClient.ChatPage.Settle`: it does not require that a request is in flight. The source runs it only as the continuation of a submit that set the flag.
- The server's reply and the page's `fetch` outcome are separate datatypes. The HTTP encoding between them is not modelled.
- `backend/test-api.js` is a one-off network diagnostic and is not part of this model. `backend/worker/vqgan_worker.py` is image-writing glue with no logic of its own and is not part of this model. The code shown has no image job tracker, so none is modelled.
- `JsText.IsWhitespace` lists the ECMAScript white space and line terminator code points. It follows the Unicode space-separator category as of current Unicode versions, not as a table taken from the engine.
