# Counseling room: a Dafny model

The application is a password-gated, anonymous chat page in front of a
generative-language API. The model covers its three pieces of deterministic
logic:

- the **authentication endpoint** (`pages/api/auth.js`): method dispatch, the
  comparison with the shared access code, the minted session id and the JSON
  reply;
- the **chat endpoint** (`pages/api/chat.js`): method dispatch, the message
  check, the prompt composer (persona, the last six turns rendered with
  speaker labels and joined by blank lines, the user's message, the closing
  instruction), the API-key check, the call to the model and the reading of
  its reply, and the fixed fallback on every failure;
- the **chat page** (`pages/index.js`): a `CounselingRoom` class whose fields
  are the component state (`isAuthenticated`, `password`, `currentSession`,
  `chatHistory`, `userInput`, `isTyping`) and whose methods are the handlers
  (login, send, reply settling, new session, end session).

Everything outside the process is a parameter: what the network calls
produced (`AuthCallOutcome`, `ChatCallOutcome`, `Gemini.UpstreamOutcome`), the
configured API key, `Math.random().toString(36)` (`randomText`), the clock
(`now`, `sentAt`, `repliedAt`) and the answer to `window.confirm`
(`confirmed`). Sending and receiving the reply are two steps
(`SendMessage`, `SettleReply`), as the page awaits the reply between them.

Layout: `wrappers.dfy` (Option, Result), `text.dfy` (JavaScript `join`,
`trim`, `substr`), `turns.dfy` (the chat turn record), `session.dfy` (session
ids), `prompt.dfy`, `gemini.dfy`, `http.dfy` (the `res` object and the CORS
headers), `chat_api.dfy`, `auth_api.dfy`, `controller.dfy`, and
`end_to_end.dfy` (the page and the endpoints together, and a walk-through).

Behaviour of the code worth knowing:

- A session id is `session_` followed by AT MOST nine base-36 characters
  (`substr(2, 9)` of the base-36 rendering of `Math.random()`): a rendering
  with fewer than nine fraction digits gives a shorter id.
- The page never shows the chat endpoint's 500 text: a non-2xx status makes
  `callChatAPI` throw, and the page appends its own, different fallback
  (`Controller.ClientFallback`). Both contain the hotline number 0570-064-556.
- The request the page posts carries the transcript from before the new user
  turn (`SendMessage` returns it), while the user turn and the reply are
  appended to the transcript as it stands when they settle. So a reply that
  settles after a confirmed `EndSession` is appended to the emptied
  transcript; `SettleReply` has no precondition and keeps that behaviour.
- The auth endpoint reports 405 under `message`, the chat endpoint under
  `error`.

## Model

| member | source | states |
|---|---|---|
| Text.TrimStart | pages/index.js:108 | the result is a suffix of the input, everything removed is whitespace, and it does not start with whitespace |
| Text.TrimEnd | pages/index.js:108 | the result is a prefix of the input, everything removed is whitespace, and it does not end with whitespace |
| Text.TrimEmptyIffBlank | pages/index.js:108 | `!s.trim()` holds exactly when every character of `s` is JavaScript whitespace |
| Text.JoinLength | pages/api/chat.js:46 | a join of n >= 1 parts is its span minus one separator: no separator after the last part |
| Text.JoinPartAt | pages/api/chat.js:45-46 | part i appears verbatim in the join at offset `Span(parts[..i])`; the first part at offset 0 |
| Text.JoinSeparatorAt | pages/api/chat.js:46 | exactly one separator stands between part i and part i+1 |
| Text.Substr | pages/api/auth.js:28 | `substr(start, length)` yields exactly min(length, n - start) characters (none when `start` is past the end), each the input's character at `start + i` |
| Session.NewSessionId | pages/api/auth.js:28 | the id is `session_` followed by exactly min(9, n - 2) characters (none for a rendering shorter than 3) taken in order from index 2 of the random rendering, all base-36 digits when that rendering is base 36 |
| Prompt.RecentTurns | pages/api/chat.js:43-44 | `slice(-6)` keeps exactly the last min(6, n) turns, in their original order |
| Prompt.ParseRenderTurn | pages/api/chat.js:45 | a rendered history line (`ユーザー: ` or `カウンセラー: ` then the message) determines the speaker and the message |
| Prompt.HistoryTextShowsTurn | pages/api/chat.js:43-46 | recent turn i of k is turn n - k + i of the history, and its rendered line appears verbatim at its offset in the block |
| Prompt.HistoryTextSeparates | pages/api/chat.js:46 | consecutive rendered turns are separated by exactly `\n\n` |
| Prompt.HistoryTextLength | pages/api/chat.js:46 | the block ends with the last rendered turn, with no trailing separator |
| Prompt.PromptRoundTrip | pages/api/chat.js:48-56 | the user's message can be read back verbatim from the prompt built for a given history |
| Prompt.PromptInjective | pages/api/chat.js:54 | for one history, different messages give different prompts |
| Prompt.PromptSections | pages/api/chat.js:48-56 | the prompt is, in order: persona, history heading, history block, message heading ending in `ユーザー: `, the message, the closing instruction |
| Gemini.ReplyText | pages/api/chat.js:100-106 | the reply is `candidates[0].content.parts[0].text` exactly when that path exists, otherwise a parse error |
| Gemini.CallGemini | pages/api/chat.js:32-111 | without a truthy API key nothing is sent and the call fails with a configuration error; with one, the request carries the key in the URL and the composed prompt; the call succeeds exactly on a 2xx JSON reply of the expected shape; a non-2xx status fails with that status |
| Http.SetCorsHeaders | pages/api/auth.js:4-6 | the three CORS headers are added and nothing else about the response changes |
| ChatApi.Respond | pages/api/chat.js:113-159 | OPTIONS: 200 without body; other non-POST: 405 `Method not allowed`; no body: 500 fallback; falsy message: 400 `Message is required` and nothing sent upstream; otherwise 200 with the model's text verbatim, or 500 with the fixed fallback; `success` holds exactly on a 200 with a body; nothing is sent upstream without a key and a non-empty message |
| ChatApi.Handle | pages/api/chat.js:113-159 | the handler sets the CORS headers first on every path, then writes exactly the status and body of `Respond` onto the response and ends it |
| AuthApi.Respond | pages/api/auth.js:2-49 | OPTIONS: 200 without body; other non-POST: 405; no body: 500; password exactly `counseling2025`: 200 with a fresh session id, `Authentication successful` and the time; anything else, a missing password included: 401 `パスワードが間違っています` without session id |
| AuthApi.SuccessIffAccessCode | pages/api/auth.js:26-41 | `success` is true exactly for a POST carrying the access code, and then the status is 200 |
| AuthApi.IssuedSessionId | pages/api/auth.js:28-35 | an issued session id is `session_` followed by at most nine base-36 characters |
| AuthApi.Handle | pages/api/auth.js:2-49 | the handler sets the CORS headers first on every path, then writes exactly the status and body of `Respond` onto the response and ends it |
| Controller.AuthenticateResult | pages/index.js:14-30 | the page sees the endpoint's body whatever the status, and a failure with `ネットワークエラーが発生しました` when the call or the decoding threw |
| Controller.ChatResult | pages/index.js:33-61 | the page gets a reply exactly on a 2xx answer whose body has `success: true`, and then it is the body's `response` |
| Controller.AssistantMessage | pages/index.js:86-100 | the appended message is the reply verbatim on success and the fixed fallback with 0570-064-556 on any failure |
| Controller.CounselingRoom.constructor | pages/index.js:5-10 | the page starts signed out, with no session, an empty transcript, empty fields and no reply awaited |
| Controller.CounselingRoom.EnterPassword | pages/index.js:171 | typing replaces the password and nothing else |
| Controller.CounselingRoom.EnterMessage | pages/index.js:275 | typing replaces the message field and nothing else |
| Controller.CounselingRoom.Login | pages/index.js:64-80 | the current password is sent; on success the page is signed in with the returned session id and a transcript of exactly the welcome turn; on any failure, the network error included, nothing changes |
| Controller.CounselingRoom.SendMessage | pages/index.js:84-118 | a blank input changes nothing and sends nothing; otherwise one user turn with the untrimmed input is appended, a reply is awaited, the input is cleared, and the request carries the transcript from before the append |
| Controller.CounselingRoom.SettleReply | pages/index.js:86-103 | one counselor turn (reply or fallback) is appended to the current transcript and no reply is awaited any more, whatever the outcome |
| Controller.CounselingRoom.SendAndSettle | pages/index.js:83-119 | a blank input changes nothing and sends nothing; after a non-blank send and its reply the transcript is the old one plus the user turn and exactly one counselor turn, the input is cleared and no reply is awaited |
| Controller.CounselingRoom.ShownSession | pages/index.js:215 | a signed-in page always has a session id to show in its header, and it is the current one |
| Controller.CounselingRoom.EndSession | pages/index.js:122-129 | when confirmed: transcript emptied, session cleared, password cleared, signed out; when declined: nothing changes |
| Controller.CounselingRoom.StartNewSession | pages/index.js:132-143 | when confirmed: a new `session_` id and a transcript of exactly the new-session turn, still signed in; when declined: nothing changes |
| EndToEnd.ChatRoundTrip | pages/index.js:87-100 | for a non-blank message the endpoint asks the model with the prompt built from the transcript sent, and the page's new turn is the model's text verbatim on success and the page's fallback on every failure |
| EndToEnd.LoginRoundTrip | pages/index.js:64-76 | the page signs in exactly when it posted the access code, with the session id the endpoint minted; otherwise it gets the wrong-password message |

## Left out

- The JSX markup, styling, icons and the auto-scroll effect: rendering with no state change to state.
- The network calls themselves (to `/api/auth`, `/api/chat` and the model's endpoint): each is an outcome passed in, including transport failures and bodies that are not JSON.
- The request's `generationConfig` (floating-point values) and `safetySettings`: constant request data; `Gemini.GeminiRequest` carries only the URL and the prompt.
- `Math.random()` and `new Date()`: passed in as `randomText` and as time strings.
- `window.confirm` is the `confirmed` argument; `alert` and `console.error` are dropped.
- React's asynchronous state batching and overlapping requests: one request is in flight at a time, as the disabled input and button enforce; the send and the reply are two sequential steps.
- `SendMessage` does not require that no reply is awaited: the handler itself does not check it, only the disabled button does.
- Values of the wrong JSON type (a number as message or password, `conversationHistory: null`, a null candidate) are not modelled: fields are absent or of their expected type.
- Gemini.ReplyText: a first part without a `text` field (the endpoint would answer 200 without `response`) is not modelled; parts always carry text.
- ChatApi.Respond: the reply body is a two-variant datatype, so a `success: true` body always carries `response`, as every body this endpoint builds does.
- The chat endpoint does not look at the session id; there is nothing to model there.
