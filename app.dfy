/**
 * The chat client's session manager (src/App.js): five pieces of state
 * (`username`, `messages`, `connectionStatus`, `socket`, `error`) changed by
 * the handlers of each WebSocket, by sending, by the reconnect timer and by
 * the "Try Again" button, plus the choice of screen made from them.
 *
 * Inbound frames arrive already decoded (`JSON.parse` is replaced by the
 * `InFrame` datatype, with `Malformed` for text that does not parse), and
 * what `socket.send` transmits is recorded in `outbox`.
 */
module App {

  datatype Status = Disconnected | Connecting | Connected

  /** A timestamp as the server sent it; entries keep it as an opaque value. */
  type Timestamp = string

  /** One chat message on the wire: `{username, message, timestamp}`. */
  datatype WireMessage = WireMessage(username: string, message: string, timestamp: Timestamp)

  /** A server frame, dispatched on its `type` tag. */
  datatype InFrame =
    | UsernameConfirmed(username: string)
    | ChatHistory(messages: seq<WireMessage>)
    | NewMessage(message: WireMessage)
    | UserJoined(username: string, timestamp: Timestamp)
    | UserLeft(username: string, timestamp: Timestamp)
    | Error(text: string)
    | Unknown(tag: string)
    | Malformed

  /** A client frame: `{type: 'username', username}` or `{type: 'message', content}`. */
  datatype OutFrame = UsernameFrame(username: string) | MessageFrame(content: string)

  /** An entry of the visible chat log. */
  datatype ChatEntry =
    | UserEntry(username: string, message: string, timestamp: Timestamp)
    | SystemEntry(content: string, timestamp: Timestamp)

  /** The close code of a normal closure. */
  const NormalClosure := 1000

  const ConnectionLostText := "Connection lost. Please refresh the page to reconnect."
  const ConnectFailedText := "Failed to connect to server. Please check your connection and try again."

  function ToEntry(m: WireMessage): ChatEntry {
    UserEntry(m.username, m.message, m.timestamp)
  }

  function JoinedNotice(name: string, t: Timestamp): ChatEntry {
    SystemEntry(name + " joined the chat", t)
  }

  function LeftNotice(name: string, t: Timestamp): ChatEntry {
    SystemEntry(name + " left the chat", t)
  }

  /** `data.messages.map(...)`: one entry per history item, in order. */
  function HistoryEntries(h: seq<WireMessage>): (r: seq<ChatEntry>)
    ensures |r| == |h|
    ensures forall i :: 0 <= i < |h| ==> r[i] == UserEntry(h[i].username, h[i].message, h[i].timestamp)
  {
    seq(|h|, i requires 0 <= i < |h| => ToEntry(h[i]))
  }

  /** The part of the state a frame can change. */
  datatype ChatState = ChatState(username: string, messages: seq<ChatEntry>, error: string)

  /** The `switch (data.type)` of `onmessage`. */
  function Receive(s: ChatState, f: InFrame): (r: ChatState)
    ensures r.username != s.username ==> f.UsernameConfirmed?
    ensures r.error != s.error ==> f.Error?
    ensures !f.ChatHistory? ==> s.messages <= r.messages
    ensures f.Unknown? || f.Malformed? ==> r == s
  {
    match f
    case UsernameConfirmed(name) => s.(username := name)
    case ChatHistory(h) => s.(messages := HistoryEntries(h))
    case NewMessage(m) => s.(messages := s.messages + [ToEntry(m)])
    case UserJoined(name, t) => s.(messages := s.messages + [JoinedNotice(name, t)])
    case UserLeft(name, t) => s.(messages := s.messages + [LeftNotice(name, t)])
    case Error(text) => s.(error := text)
    case Unknown(_) => s
    case Malformed => s
  }

  /** The frames that add one entry to the log, and the entry each adds. */
  predicate Appends(f: InFrame) {
    f.NewMessage? || f.UserJoined? || f.UserLeft?
  }

  function AppendedEntry(f: InFrame): ChatEntry
    requires Appends(f)
  {
    match f
    case NewMessage(m) => ToEntry(m)
    case UserJoined(name, t) => JoinedNotice(name, t)
    case UserLeft(name, t) => LeftNotice(name, t)
  }

  lemma ConfirmedSetsOnlyUsername(s: ChatState, name: string)
    ensures Receive(s, UsernameConfirmed(name)) == ChatState(name, s.messages, s.error)
  {
  }

  /** History replaces the log wholesale, whatever it held, and a repeat changes nothing more. */
  lemma HistoryReplacesLog(s: ChatState, h: seq<WireMessage>)
    ensures var r := Receive(s, ChatHistory(h));
      && r.username == s.username && r.error == s.error
      && |r.messages| == |h|
      && (forall i :: 0 <= i < |h| ==> r.messages[i] == UserEntry(h[i].username, h[i].message, h[i].timestamp))
    ensures Receive(Receive(s, ChatHistory(h)), ChatHistory(h)) == Receive(s, ChatHistory(h))
  {
  }

  /** A message, join or leave frame appends exactly one entry and keeps what was there. */
  lemma AppendingFrameAddsOne(s: ChatState, f: InFrame)
    requires Appends(f)
    ensures var r := Receive(s, f);
      && r.username == s.username && r.error == s.error
      && |r.messages| == |s.messages| + 1
      && r.messages[..|s.messages|] == s.messages
      && r.messages[|s.messages|] == AppendedEntry(f)
  {
    assert (s.messages + [AppendedEntry(f)])[..|s.messages|] == s.messages;
  }

  /** The system entries' texts. */
  lemma NoticeTexts(name: string, t: Timestamp)
    ensures AppendedEntry(UserJoined(name, t)) == SystemEntry(name + " joined the chat", t)
    ensures AppendedEntry(UserLeft(name, t)) == SystemEntry(name + " left the chat", t)
  {
  }

  lemma ErrorFrameSetsOnlyError(s: ChatState, text: string)
    ensures Receive(s, Error(text)) == ChatState(s.username, s.messages, text)
  {
  }

  /** Unknown tags and text that does not parse leave the state as it was. */
  lemma IgnoredFramesChangeNothing(s: ChatState, tag: string)
    ensures Receive(s, Unknown(tag)) == s
    ensures Receive(s, Malformed) == s
  {
  }

  /** The frames of a sequence applied in order. */
  function ReceiveAll(s: ChatState, fs: seq<InFrame>): ChatState
    decreases |fs|
  {
    if fs == [] then s else ReceiveAll(Receive(s, fs[0]), fs[1..])
  }

  /** How many frames of `fs` append an entry. */
  function AppendCount(fs: seq<InFrame>): nat
    decreases |fs|
  {
    if fs == [] then 0 else (if Appends(fs[0]) then 1 else 0) + AppendCount(fs[1..])
  }

  /**
   * Between history loads the log only grows: without a `chat_history`
   * frame, the old log is a prefix of the new one, which is longer by one
   * entry per message, join and leave frame.
   */
  lemma {:induction false} AppendOnlyBetweenHistories(s: ChatState, fs: seq<InFrame>)
    requires forall i :: 0 <= i < |fs| ==> !fs[i].ChatHistory?
    ensures s.messages <= ReceiveAll(s, fs).messages
    ensures |ReceiveAll(s, fs).messages| == |s.messages| + AppendCount(fs)
    decreases |fs|
  {
    if fs != [] {
      var s' := Receive(s, fs[0]);
      if Appends(fs[0]) {
        AppendingFrameAddsOne(s, fs[0]);
      }
      assert s.messages <= s'.messages;
      AppendOnlyBetweenHistories(s', fs[1..]);
    }
  }

  /** `error` after `onclose(code)`: the connection-lost text unless the closure was normal. */
  function CloseError(code: int, previous: string): (e: string)
    ensures e == ConnectionLostText <==> code != NormalClosure || previous == ConnectionLostText
    ensures code == NormalClosure ==> e == previous
  {
    if code != NormalClosure then ConnectionLostText else previous
  }

  /** The condition under which the reconnect effect arms its timer (line 130). */
  predicate ReconnectDue(status: Status, username: string, hasSocket: bool) {
    status == Disconnected && username != "" && !hasSocket
  }

  datatype Screen = ErrorScreen | UsernameScreen | ChatScreen

  /** Which of the three views `App` renders (lines 142 and 212). */
  function SelectScreen(username: string, status: Status, error: string): (r: Screen)
    ensures r == ChatScreen <==> username != "" && status != Disconnected
    ensures status == Disconnected ==> r != ChatScreen
  {
    if error != "" && status == Disconnected then ErrorScreen
    else if username == "" || status == Disconnected then UsernameScreen
    else ChatScreen
  }

  /** `disabled={connectionStatus !== 'connected'}` of the message input (line 229). */
  predicate InputDisabled(status: Status) {
    status != Connected
  }

  /**
   * The error screen shows exactly for an error while disconnected, the
   * username screen otherwise when no name is confirmed or the connection is
   * down, and the chat screen only for a confirmed name on a live or opening
   * connection, where sending is enabled exactly when connected.
   */
  lemma ScreenSelection(username: string, status: Status, error: string)
    ensures SelectScreen(username, status, error) == ErrorScreen <==> error != "" && status == Disconnected
    ensures SelectScreen(username, status, error) == UsernameScreen <==>
      !(error != "" && status == Disconnected) && (username == "" || status == Disconnected)
    ensures SelectScreen(username, status, error) == ChatScreen <==> username != "" && status != Disconnected
    ensures SelectScreen(username, status, error) == ChatScreen ==> (InputDisabled(status) <==> status == Connecting)
  {
  }

  /** A WebSocket's `readyState`: `Pending` is CONNECTING. */
  datatype ReadyState = Pending | Open | Closing | Closed

  /** What `close()` does to `readyState`: a connection that is opening or open starts closing. */
  function AfterClose(r: ReadyState): ReadyState {
    if r == Pending || r == Open then Closing else r
  }

  /**
   * One `new WebSocket(...)` made by `connectWebSocket`. Its handlers close
   * over the name `connectWebSocket` was called with, kept here as `name`.
   * The browser moves `readyState` on: to Open before `onopen`, to Closed
   * before `onerror` and `onclose`.
   */
  class Transport {
    const name: string
    var readyState: ReadyState

    constructor (name: string)
      ensures this.name == name && readyState == Pending
    {
      this.name := name;
      readyState := Pending;
    }

    method Close()
      modifies this
      ensures readyState == AfterClose(old(readyState))
    {
      readyState := AfterClose(readyState);
    }
  }

  /**
   * The state of `App`, with `outbox` recording every frame sent and
   * `timerArmed` telling whether the reconnect `setTimeout` is pending.
   * Each event method runs its handler and then the two effects whose
   * dependencies it changed, as React does after the render that follows.
   */
  class ChatApp {
    var username: string
    var messages: seq<ChatEntry>
    var connectionStatus: Status
    var socket: Transport?
    var error: string
    var outbox: seq<OutFrame>
    var timerArmed: bool

    /** A reconnect timer is pending exactly when the effect's condition holds: at most one, never stale. */
    ghost predicate Valid()
      reads this
    {
      timerArmed == ReconnectDue(connectionStatus, username, socket != null)
    }

    function State(): ChatState
      reads this
    {
      ChatState(username, messages, error)
    }

    /** The first render and its effects: nothing is due, so no timer is armed. */
    constructor ()
      ensures Valid()
      ensures username == "" && messages == [] && connectionStatus == Disconnected
      ensures socket == null && error == "" && outbox == [] && !timerArmed
    {
      username, messages, connectionStatus := "", [], Disconnected;
      socket, error, outbox, timerArmed := null, "", [], false;
    }

    /** The socket effect (lines 121-127): once `socket` has changed, the previous socket is closed. */
    method SocketEffect(previous: Transport?)
      modifies previous
      ensures previous != null && previous != socket ==> previous.readyState == AfterClose(old(previous.readyState))
      ensures previous != null && previous == socket ==> previous.readyState == old(previous.readyState)
    {
      if previous != null && previous != socket {
        previous.Close();
      }
    }

    /**
     * The reconnect effect (lines 129-140): when one of its dependencies has
     * changed, the cleanup clears the pending timer and the effect arms a new
     * one if reconnecting is due.
     */
    method ReconnectEffect(prevStatus: Status, prevUsername: string, prevSocket: Transport?)
      modifies this`timerArmed
      ensures connectionStatus != prevStatus || username != prevUsername || socket != prevSocket ==>
        timerArmed == ReconnectDue(connectionStatus, username, socket != null)
      ensures connectionStatus == prevStatus && username == prevUsername && socket == prevSocket ==>
        timerArmed == old(timerArmed)
    {
      if connectionStatus != prevStatus || username != prevUsername || socket != prevSocket {
        timerArmed := false;
        if ReconnectDue(connectionStatus, username, socket != null) {
          timerArmed := true;
        }
      }
    }

    /**
     * `connectWebSocket(name)` (lines 18-25): status `connecting`, error
     * cleared and a new socket opening; username, log and `socket` are left
     * as they were.
     */
    method ConnectWebSocket(name: string) returns (ws: Transport)
      modifies this
      ensures fresh(ws) && ws.name == name && ws.readyState == Pending
      ensures connectionStatus == Connecting && error == ""
      ensures username == old(username) && messages == old(messages) && socket == old(socket)
      ensures outbox == old(outbox) && timerArmed == old(timerArmed)
    {
      connectionStatus := Connecting;
      error := "";
      ws := new Transport(name);
    }

    /** `handleUsernameSubmit` (lines 108-110): connect with the submitted name; a pending timer is cleared. */
    method HandleUsernameSubmit(name: string) returns (ws: Transport)
      requires Valid()
      modifies this
      ensures Valid()
      ensures fresh(ws) && ws.name == name && ws.readyState == Pending
      ensures connectionStatus == Connecting && error == "" && !timerArmed
      ensures username == old(username) && messages == old(messages) && socket == old(socket)
      ensures outbox == old(outbox)
    {
      var prevStatus, prevUsername, prevSocket := connectionStatus, username, socket;
      ws := ConnectWebSocket(name);
      ReconnectEffect(prevStatus, prevUsername, prevSocket);
    }

    /**
     * `ws.onopen` (lines 27-36): connected, `ws` stored, and one `username`
     * frame sent carrying the name `ws` was opened for; the username itself
     * waits for the server's confirmation. A socket it replaces is closed.
     */
    method OnOpen(ws: Transport)
      requires Valid() && ws.readyState == Open
      modifies this, socket
      ensures Valid()
      ensures connectionStatus == Connected && socket == ws && !timerArmed
      ensures outbox == old(outbox) + [UsernameFrame(ws.name)]
      ensures username == old(username) && messages == old(messages) && error == old(error)
      ensures ws.readyState == Open
      ensures old(socket) != null && old(socket) != ws ==> old(socket).readyState == AfterClose(old(socket.readyState))
    {
      var prevStatus, prevUsername, prevSocket := connectionStatus, username, socket;
      connectionStatus := Connected;
      socket := ws;
      outbox := outbox + [UsernameFrame(ws.name)];
      SocketEffect(prevSocket);
      ReconnectEffect(prevStatus, prevUsername, prevSocket);
    }

    /**
     * `ws.onmessage` (lines 38-87): the frame is applied by `Receive`; status,
     * socket and outbox never change. A confirmed name is a dependency of the
     * reconnect effect, so the timer is re-evaluated.
     */
    method OnMessage(ws: Transport, frame: InFrame)
      requires Valid() && ws.readyState == Open
      modifies this
      ensures Valid()
      ensures State() == Receive(old(State()), frame)
      ensures connectionStatus == old(connectionStatus) && socket == old(socket) && outbox == old(outbox)
      ensures username == old(username) ==> timerArmed == old(timerArmed)
    {
      var prevStatus, prevUsername, prevSocket := connectionStatus, username, socket;
      var next := Receive(State(), frame);
      username, messages, error := next.username, next.messages, next.error;
      ReconnectEffect(prevStatus, prevUsername, prevSocket);
    }

    /**
     * `ws.onclose` (lines 89-97): disconnected with no socket, whichever
     * socket closed; the connection-lost error is set exactly for a code
     * other than 1000. A reconnect is then due exactly when a name is held.
     */
    method OnClose(ws: Transport, code: int)
      requires Valid() && ws.readyState == Closed
      modifies this, socket
      ensures Valid()
      ensures connectionStatus == Disconnected && socket == null
      ensures error == CloseError(code, old(error))
      ensures username == old(username) && messages == old(messages) && outbox == old(outbox)
      ensures timerArmed <==> username != ""
      ensures old(socket) != null ==> old(socket).readyState == AfterClose(old(socket.readyState))
    {
      var prevStatus, prevUsername, prevSocket := connectionStatus, username, socket;
      connectionStatus := Disconnected;
      socket := null;
      if code != NormalClosure {
        error := ConnectionLostText;
      }
      SocketEffect(prevSocket);
      ReconnectEffect(prevStatus, prevUsername, prevSocket);
    }

    /**
     * `ws.onerror` (lines 99-103): disconnected with the connection-failed
     * error; `socket` is not cleared, so no reconnect is due while one is held.
     */
    method OnError(ws: Transport)
      requires Valid() && ws.readyState == Closed
      modifies this
      ensures Valid()
      ensures connectionStatus == Disconnected && error == ConnectFailedText
      ensures username == old(username) && messages == old(messages)
      ensures socket == old(socket) && outbox == old(outbox)
      ensures timerArmed <==> username != "" && socket == null
    {
      var prevStatus, prevUsername, prevSocket := connectionStatus, username, socket;
      connectionStatus := Disconnected;
      error := ConnectFailedText;
      ReconnectEffect(prevStatus, prevUsername, prevSocket);
    }

    /**
     * `handleSendMessage` (lines 112-119): one `message` frame is sent when a
     * socket is held and open, nothing otherwise; the log is never touched,
     * the sent text appears only when the server echoes it.
     */
    method HandleSendMessage(content: string)
      requires Valid()
      modifies this
      ensures Valid()
      ensures outbox == if socket != null && socket.readyState == Open
        then old(outbox) + [MessageFrame(content)] else old(outbox)
      ensures username == old(username) && messages == old(messages) && error == old(error)
      ensures connectionStatus == old(connectionStatus) && socket == old(socket) && timerArmed == old(timerArmed)
    {
      if socket != null && socket.readyState == Open {
        outbox := outbox + [MessageFrame(content)];
      }
    }

    /**
     * The reconnect timer fires (lines 131-136). Only an armed timer can fire;
     * its callback reads the `connectionStatus` captured when it was armed,
     * which was `disconnected`, and reconnects with the held name.
     */
    method FireReconnectTimer() returns (ws: Transport?)
      requires Valid()
      modifies this
      ensures Valid()
      ensures old(timerArmed) ==> ws != null && fresh(ws) && ws.name == old(username) && ws.readyState == Pending
      ensures old(timerArmed) ==> connectionStatus == Connecting && error == "" && !timerArmed
      ensures !old(timerArmed) ==> ws == null && connectionStatus == old(connectionStatus) && error == old(error)
      ensures !old(timerArmed) ==> !timerArmed
      ensures username == old(username) && messages == old(messages) && socket == old(socket) && outbox == old(outbox)
    {
      ws := null;
      if timerArmed {
        var prevStatus, prevUsername, prevSocket := connectionStatus, username, socket;
        timerArmed := false;
        if connectionStatus == Disconnected {
          ws := ConnectWebSocket(username);
        }
        ReconnectEffect(prevStatus, prevUsername, prevSocket);
      }
    }

    /** "Try Again" (lines 187-192): the error is cleared and, if a name is held, a connection is started. */
    method Retry() returns (ws: Transport?)
      requires Valid()
      modifies this
      ensures Valid()
      ensures error == ""
      ensures old(username) != "" ==> ws != null && fresh(ws) && ws.name == old(username) && ws.readyState == Pending
      ensures old(username) != "" ==> connectionStatus == Connecting && !timerArmed
      ensures old(username) == "" ==> ws == null && connectionStatus == old(connectionStatus) && timerArmed == old(timerArmed)
      ensures username == old(username) && messages == old(messages) && socket == old(socket) && outbox == old(outbox)
    {
      var prevStatus, prevUsername, prevSocket := connectionStatus, username, socket;
      error := "";
      ws := null;
      if username != "" {
        ws := ConnectWebSocket(username);
      }
      ReconnectEffect(prevStatus, prevUsername, prevSocket);
    }

    /** Unmounting runs both cleanups: the held socket is closed and the pending timer cleared. */
    method Unmount()
      modifies this, socket
      ensures !timerArmed
      ensures old(socket) != null ==> old(socket).readyState == AfterClose(old(socket.readyState))
      ensures username == old(username) && messages == old(messages) && error == old(error)
      ensures connectionStatus == old(connectionStatus) && socket == old(socket) && outbox == old(outbox)
    {
      if socket != null {
        socket.Close();
      }
      timerArmed := false;
    }
  }
}
