# Chat client session model

This Dafny project models the logic of a small React chat client. It has four parts:

- **Session manager** (`App`, in `app.dfy`). The five state fields of the `App` component are `username`, `messages`, `connectionStatus`, `socket` and `error`. Events change them:
  - the handlers of each WebSocket: `onopen`, `onmessage`, `onclose`, `onerror`;
  - sending a message;
  - the reconnect timer firing;
  - the "Try Again" button.

  After each event, the two React effects whose dependencies changed run:
  - the socket effect closes a socket that has been replaced;
  - the reconnect effect clears the pending timer and arms a new one when a reconnect is due.

  The class `ChatApp` holds the fields. Two more fields record what the real code does through I/O: `outbox` holds every frame passed to `socket.send`, and `timerArmed` says whether the `setTimeout` is pending. `Valid()` states that a timer is pending exactly when the effect's condition holds. So at most one timer is ever pending, and a pending timer always matches the current state. Each `new WebSocket(...)` is a `Transport` object. It keeps the name its handlers captured, and its `readyState`. Server frames come as the `InFrame` datatype, which stands in for `JSON.parse`. `Malformed` is text that does not parse. `Receive` is the handler's `switch` on the frame's tag. `SelectScreen` chooses the error, username or chat view.
- **Username form** (`UsernameInput`, in `username_input.dfy`). It trims the input and runs three checks: empty, longer than 50, characters outside `[a-zA-Z0-9_\-\s]`. The first check that fails sets the error text. If none fails, the form hands the trimmed name to its callback.
- **Message composer** (`MessageInput`, in `message_input.dfy`). Its submit guard trims the draft and refuses it when empty, disabled or longer than 1000. On success it forwards the trimmed text and clears the draft. It also models the Enter-without-Shift shortcut and the send button's `disabled` state.
- **Endpoint configuration** (`Config`, in `config.dfy`). It models `getApiUrl`, `getEnvironment`, the priority chain of `getWsUrl` and `validateUrls`. The environment is a record of optional strings, and an empty string counts as unset.
  - `new URL(...)` becomes a parameter of type `UrlParser`: it returns the parsed `(protocol, host)`, or `None` where the constructor throws.
  - `window.location` becomes a parameter of type `Url`.

`js_string.dfy` models the JavaScript string behaviour the forms rely on:
- the whitespace set that `trim` strips and `\s` matches;
- `trim` itself;
- `length`, which counts UTF-16 code units, so a character outside the Basic Multilingual Plane counts as two.

`scenarios.dfy` runs the session manager from a fresh mount, event by event. Each run's results are stated in its `ensures`.

## Model

| member | source | states |
|---|---|---|
| `JsString.Trim` | src/components/UsernameInput.js:10 | the trimmed string is no longer than the input and starts and ends with no whitespace |
| `JsString.TrimEmptyIff` | src/components/MessageInput.js:9-11 | a string trims to "" exactly when all its characters are whitespace |
| `JsString.TrimIdempotent` | src/components/MessageInput.js:9 | trimming an already trimmed string changes nothing |
| `JsString.TrimIsInfix` | src/components/UsernameInput.js:10 | the trimmed string is a contiguous part of the input, and everything outside it is whitespace |
| `JsString.Utf16Length` | src/components/UsernameInput.js:17 | JavaScript `length` lies between the character count and twice it, and equals the character count exactly when every character is in the Basic Multilingual Plane |
| `UsernameInput.ValidateUsername` | src/components/UsernameInput.js:10-25 | "Please enter a username" exactly for input that is all whitespace; an accepted name is the trimmed input, 1 to 50 characters long, with no whitespace at either end and only allowed characters |
| `UsernameInput.ValidateUsernameOrder` | src/components/UsernameInput.js:12-25 | the checks run as empty, then length over 50, then charset, and the first failing check gives the message; a name is accepted exactly when all three pass |
| `UsernameInput.AcceptedLengthIsCharCount` | src/components/UsernameInput.js:17-25 | every allowed character is a single UTF-16 unit, so an accepted name's `length` is its character count |
| `UsernameInput.ValidateIgnoresPadding` | src/components/UsernameInput.js:10 | adding whitespace around the input never changes the verdict |
| `UsernameInput.UsernameForm.constructor` | src/components/UsernameInput.js:4-5 | the draft and the error start empty and nothing has been submitted |
| `UsernameInput.UsernameForm.HandleChange` | src/components/UsernameInput.js:70-73 | typing replaces the draft and clears the error; it submits nothing |
| `UsernameInput.UsernameForm.HandleSubmit` | src/components/UsernameInput.js:7-29 | a rejected submission shows its message and calls nothing; an accepted one clears the error and calls back exactly once, with the trimmed name |
| `MessageInput.SubmittedText` | src/components/MessageInput.js:9-19 | nothing is sent when disabled, when the draft is all whitespace, or when the trimmed text is longer than 1000, and in no other case; what is sent is the trimmed text, 1 to 1000 units long, with no whitespace at either end |
| `MessageInput.SendButtonDisabled` | src/components/MessageInput.js:87 | the send button's `disabled` condition: trimmed draft empty or input disabled; `SendButtonMatchesGuard` ties it to the submit guard |
| `MessageInput.SendButtonMatchesGuard` | src/components/MessageInput.js:87 | the button is disabled exactly when the draft is all whitespace or the input is disabled; a disabled button matches the first early return; an enabled button sends exactly when the length is within 1000 |
| `MessageInput.IsSubmitKey` | src/components/MessageInput.js:24 | the key test `key === 'Enter' && !shiftKey`; `MessageComposer.HandleKeyPress` shows that it alone decides whether a key press submits |
| `MessageInput.MessageComposer.constructor` | src/components/MessageInput.js:4 | the draft starts empty and nothing has been sent |
| `MessageInput.MessageComposer.HandleChange` | src/components/MessageInput.js:49 | typing replaces the draft and sends nothing |
| `MessageInput.MessageComposer.HandleSubmit` | src/components/MessageInput.js:6-21 | on success the trimmed text is sent once and the draft becomes ""; otherwise neither the draft nor what was sent changes (an over-long draft is kept) |
| `MessageInput.MessageComposer.HandleKeyPress` | src/components/MessageInput.js:23-28 | Enter without Shift acts as a submit; any other key, and Shift+Enter, change nothing |
| `Config.GetApiUrl` | src/config.js:2-4 | the API variable when it is set and not empty, `http://localhost:5000` otherwise; never empty |
| `Config.GetEnvironment` | src/config.js:45-47 | `NODE_ENV` when it is set and not empty, `development` otherwise; never empty |
| `Config.WsScheme` | src/config.js:15 | the scheme is `wss:` exactly for protocol `https:`, and `ws:` otherwise |
| `Config.WsOrigin` | src/config.js:15-16 | an origin built from a URL always starts with `ws://` or `wss://` |
| `Config.GetWsUrl` | src/config.js:6-28 | the priority chain of `getWsUrl`; without an override, any URL it returns starts with `ws://` or `wss://`; the rungs are pinned by `WsUrlPriority`, `WsUrlFailsOnlyOnBadApiUrl` and `WsUrlIgnoresLocation` |
| `Config.WsUrlPriority` | src/config.js:6-28 | a set override is returned verbatim; else a set API URL gives its origin (or a throw); else production gives the page's origin; else `ws://localhost:5000` |
| `Config.WsUrlFailsOnlyOnBadApiUrl` | src/config.js:13-17 | `getWsUrl` throws exactly when there is no override, the API variable is set and it does not parse; the throw names that URL |
| `Config.WsUrlIgnoresLocation` | src/config.js:19-24 | the page location affects the result only in production with neither variable set |
| `Config.DerivedWsUrlShape` | src/config.js:15-16 | a derived URL is `wss://` plus the host for an `https:` source and `ws://` plus the host otherwise |
| `Config.ValidateUrls` | src/config.js:49-69 | it throws exactly when `getWsUrl` does; otherwise `isValid` holds exactly when `errors` is empty; `errors` has at most two entries, the API message first, each present exactly when its URL does not parse |
| `Config.NoApiErrorWhenWsDerivedFromApi` | src/config.js:13-17 | with no override and a set API URL, a `getWsUrl` that does not throw has already parsed the API URL, so `validateUrls` cannot report it as invalid |
| `App.HistoryEntries` | src/App.js:48-51 | one entry per history item, in order, carrying that item's author, text and timestamp |
| `App.Receive` | src/App.js:42-86 | the dispatch on the frame tag: only `username_confirmed` changes the username, only `error` changes the error, every frame but `chat_history` keeps the old log as a prefix, and unknown or malformed frames change nothing; each case is pinned by the lemmas below |
| `App.ConfirmedSetsOnlyUsername` | src/App.js:43-45 | `username_confirmed` sets the username to the server's value and changes nothing else |
| `App.HistoryReplacesLog` | src/App.js:47-52 | `chat_history` replaces the log wholesale, whatever it held before, and keeps username and error; applying it twice is the same as once |
| `App.AppendingFrameAddsOne` | src/App.js:54-75 | `new_message`, `user_joined` and `user_left` each add exactly one entry at the end, keep the earlier entries, and keep username and error |
| `App.NoticeTexts` | src/App.js:61-75 | join and leave entries are system entries reading "<name> joined the chat" and "<name> left the chat" |
| `App.ErrorFrameSetsOnlyError` | src/App.js:77-79 | an `error` frame sets the error to its text and leaves username and log alone |
| `App.IgnoredFramesChangeNothing` | src/App.js:81-86 | an unknown tag and a frame that does not parse leave the state exactly as it was |
| `App.AppendOnlyBetweenHistories` | src/App.js:54-75 | over any run of frames without a `chat_history`, the old log is a prefix of the new one, which is longer by one entry for each message, join and leave frame |
| `App.CloseError` | src/App.js:94-96 | the error after a close keeps its old value for code 1000; for any other code it becomes the connection-lost text |
| `App.ReconnectDue` | src/App.js:130 | the reconnect effect's condition: disconnected, a name held and no socket; `ChatApp.Valid` keeps the timer equal to it |
| `App.ScreenSelection` | src/App.js:142-214 | error screen exactly for an error while disconnected; username screen exactly when that does not apply and no name is held or the status is disconnected; chat screen exactly for a held name while not disconnected, where input is disabled exactly while connecting |
| `App.SelectScreen` | src/App.js:142-214 | the chat screen shows exactly for a held name while not disconnected, so never while disconnected; `ScreenSelection` gives the other two screens |
| `App.InputDisabled` | src/App.js:229 | the message input is disabled unless connected; `ScreenSelection` shows that on the chat screen this means exactly while connecting |
| `App.Transport.constructor` | src/App.js:25 | a new socket is connecting and carries the name its handlers captured |
| `App.Transport.Close` | src/App.js:124 | `close()` moves a connecting or open socket to closing and leaves others as they were |
| `App.ChatApp.constructor` | src/App.js:8-12 | empty username, log and error, disconnected, no socket, nothing sent, no timer pending |
| `App.ChatApp.SocketEffect` | src/App.js:121-127 | when `socket` has changed, the previous socket is closed; otherwise it is left alone |
| `App.ChatApp.ReconnectEffect` | src/App.js:129-140 | when status, username or socket changed, the pending timer is cleared, and a new one is armed exactly when disconnected with a name and no socket; otherwise the timer is left alone |
| `App.ChatApp.ConnectWebSocket` | src/App.js:18-25 | status connecting and error cleared; a new connecting socket carries the given name; username, log, held socket and outbox unchanged |
| `App.ChatApp.HandleUsernameSubmit` | src/App.js:108-110 | as `ConnectWebSocket`, after which no timer is pending |
| `App.ChatApp.OnOpen` | src/App.js:27-36 | connected, the socket is held, and exactly one `username` frame with the socket's captured name is sent; username, log and error unchanged; a replaced socket is closed |
| `App.ChatApp.OnMessage` | src/App.js:38-87 | username, log and error become `Receive` of the frame; status, socket and outbox never change |
| `App.ChatApp.OnClose` | src/App.js:89-97 | always disconnected with no socket; the error is set by `CloseError`; a reconnect is armed exactly when a name is held |
| `App.ChatApp.OnError` | src/App.js:99-103 | disconnected with the connection-failed text; the socket stays held, so a reconnect is armed only when no socket is held |
| `App.ChatApp.HandleSendMessage` | src/App.js:112-119 | exactly one `message` frame is sent when a socket is held and open; otherwise nothing is sent; the log and all other state are unchanged, so there is no local echo |
| `App.ChatApp.FireReconnectTimer` | src/App.js:131-136 | only a pending timer fires; then a connection for the held name starts and no timer remains; otherwise nothing changes |
| `App.ChatApp.Retry` | src/App.js:187-192 | the error is cleared; a connection for the held name starts only when a name is held; otherwise the status stays as it was |
| `App.ChatApp.Unmount` | src/App.js:121-140 | the held socket is closed and no timer remains pending |
| `Scenarios.JoinThenReceive` | src/App.js:18-87 | join as "bob", then confirmation, empty history and carol's "hi": connected as bob, the log is exactly carol's message, the only frame sent is bob's `username` frame, and the chat screen shows |
| `Scenarios.AbnormalCloseReconnects` | src/App.js:89-140 | a 1006 close after confirmation shows the connection-lost error screen and arms a reconnect; firing it starts a connection for bob with the error cleared |
| `Scenarios.NormalCloseBeforeConfirmation` | src/App.js:89-97 | a 1000 close before confirmation leaves no error and no timer, and the username form shows |
| `Scenarios.SendNeedsOpenSocket` | src/App.js:112-119 | a send before the socket opens transmits nothing; after it opens, one frame goes out |
| `Scenarios.IgnoredFramesKeepSession` | src/App.js:38-86 | a malformed frame and an unknown tag leave a live session's state unchanged |
| `Scenarios.FailedFirstAttemptThenRetry` | src/App.js:187-192 | a first attempt that fails shows the error screen without a reconnect; "Try Again" then only clears the error and returns to the username form |
| `Scenarios.DoubleSubmit` | src/App.js:18-103 | two submits open two sockets; when the first fails (its `onerror` and `onclose` back to back) and the second then opens, the status goes from disconnected straight to connected and the second socket is held |
| `Scenarios.StaleCloseDropsLiveSocket` | src/App.js:27-127 | when both sockets open, the second replaces the first, which is closed; the first socket's `onclose`, whatever its code, then clears the live second socket, which is closed in turn |

## How the code behaves where one might expect otherwise

- A new connection never clears `messages`. The log is replaced only when a `chat_history` frame arrives.
- `connectWebSocket` never sets `username`. Only the server's `username_confirmed` sets it. If a first attempt fails before confirmation, nothing reconnects (`Scenarios.FailedFirstAttemptThenRetry`).
- The username form stays on screen while a first connection opens, because no name is confirmed yet. A second submit opens a second socket, and the handlers of both stay live. If the first fails and the second then opens, the status goes from disconnected straight to connected (`Scenarios.DoubleSubmit`). If both open, the second replaces the first, and the first socket's `onclose` then clears the live socket (`Scenarios.StaleCloseDropsLiveSocket`).
- `handleSendMessage` checks the socket's `readyState`, not `connectionStatus`.
- `onerror` does not clear `socket`. While a socket is held, no reconnect is armed until `onclose` follows.
- The connection-lost text asks the user to refresh the page, yet a reconnect is armed whenever a name is held.
- The timer callback's `connectionStatus === 'disconnected'` check reads the value captured when the timer was armed. That value is always `disconnected`, so the check never fails. A timer whose dependencies changed has already been cleared.

## Left out

- `src/components/ChatWindow.js`, and all markup and styles. They are presentation only.
- The real WebSocket and the network. `readyState` is a field of `Transport`. Scenarios set it where the browser would. `send` appends to `outbox`, and `close()` is `Transport.Close`. The close reason is only logged.
- The browser runs a failed socket's `onerror` and `onclose` in one task, back to back. The model does not enforce this pairing. Each handler is its own event, and the scenarios keep the pair together.
- The close code that a `close()` without arguments produces is not modelled. `OnClose` accepts any code.
- `JSON.parse` and `JSON.stringify`. Frames are datatypes. A frame with a known tag whose fields are missing is not modelled separately. One whose handler would throw (a `chat_history` without a `messages` array) behaves like `Malformed`. A `username_confirmed` without `username`, which would set the name to `undefined`, is not modelled.
- The spread of extra wire fields into log entries is not modelled.
- Encoding a message frame and decoding it again is not modelled, because JSON is not modelled.
- `new Date(...)`. Timestamps stay opaque strings.
- `new URL(...)` and `window.location`. Both are parameters (`UrlParser`, `Url`).
- `App.ChatApp.ConnectWebSocket`: does not resolve the URL (`config.getBackendConfig()`) and does not construct the socket from it. A `getWsUrl` that throws (`Config.WsUrlFailsOnlyOnBadApiUrl`) would abort `connectWebSocket` after it has already set the status and cleared the error. The model always creates the socket.
- React scheduling. Each event method is one handler followed by the effects of one render. Batching across several events, and the real 3000 ms delay, are not modelled. The timer is only a flag plus a fire event.
- Console logging, `logConfig`, and the `isDevelopment` test that only `logConfig` uses.
- `getBackendConfig` appears only inside `Config.ValidateUrls`, as its two lookups.
- The `maxLength` attributes of the two inputs (50 and 1000), and the disabled textarea. They limit typing in the browser. The submit guards do not rely on them.
