/** Runs of the session manager from a fresh mount, event by event. */
module Scenarios {
  import opened App

  /** Join as "bob", receive an empty history and then one message from "carol". */
  method JoinThenReceive(t: Timestamp)
    returns (status: Status, name: string, log: seq<ChatEntry>, sent: seq<OutFrame>, screen: Screen)
    ensures status == Connected && name == "bob" && screen == ChatScreen
    ensures log == [UserEntry("carol", "hi", t)]
    ensures sent == [UsernameFrame("bob")]
  {
    var app := new ChatApp();
    var ws := app.HandleUsernameSubmit("bob");
    ws.readyState := Open;
    app.OnOpen(ws);
    app.OnMessage(ws, UsernameConfirmed("bob"));
    app.OnMessage(ws, ChatHistory([]));
    app.OnMessage(ws, NewMessage(WireMessage("carol", "hi", t)));
    status, name, log, sent := app.connectionStatus, app.username, app.messages, app.outbox;
    screen := SelectScreen(app.username, app.connectionStatus, app.error);
  }

  /**
   * An abnormal closure (1006) after "bob" was confirmed shows the
   * connection-lost error and arms one reconnect; when it fires, a new
   * connection for "bob" starts and the error is cleared.
   */
  method AbnormalCloseReconnects()
    returns (closedError: string, armed: bool, closedScreen: Screen, retryName: string, retryStatus: Status, retryError: string)
    ensures closedError == ConnectionLostText && armed && closedScreen == ErrorScreen
    ensures retryName == "bob" && retryStatus == Connecting && retryError == ""
  {
    var app := new ChatApp();
    var ws := app.HandleUsernameSubmit("bob");
    ws.readyState := Open;
    app.OnOpen(ws);
    app.OnMessage(ws, UsernameConfirmed("bob"));
    ws.readyState := Closed;
    app.OnClose(ws, 1006);
    closedError, armed := app.error, app.timerArmed;
    closedScreen := SelectScreen(app.username, app.connectionStatus, app.error);
    var again := app.FireReconnectTimer();
    retryName, retryStatus, retryError := again.name, app.connectionStatus, app.error;
  }

  /** A normal closure (1000) before any name was confirmed: no error, no reconnect, back to the username form. */
  method NormalCloseBeforeConfirmation()
    returns (status: Status, error: string, armed: bool, screen: Screen)
    ensures status == Disconnected && error == "" && !armed && screen == UsernameScreen
  {
    var app := new ChatApp();
    var ws := app.HandleUsernameSubmit("bob");
    ws.readyState := Open;
    app.OnOpen(ws);
    ws.readyState := Closed;
    app.OnClose(ws, NormalClosure);
    status, error, armed := app.connectionStatus, app.error, app.timerArmed;
    screen := SelectScreen(app.username, app.connectionStatus, app.error);
  }

  /** Sending before the socket opens transmits nothing; after it opens, one frame. */
  method SendNeedsOpenSocket() returns (before: seq<OutFrame>, after: seq<OutFrame>)
    ensures before == []
    ensures after == [UsernameFrame("bob"), MessageFrame("hi")]
  {
    var app := new ChatApp();
    var ws := app.HandleUsernameSubmit("bob");
    app.HandleSendMessage("early");
    before := app.outbox;
    ws.readyState := Open;
    app.OnOpen(ws);
    app.HandleSendMessage("hi");
    after := app.outbox;
  }

  /** A frame that does not parse, or one with an unknown tag, changes no part of a live session. */
  method IgnoredFramesKeepSession(t: Timestamp) returns (same: bool, status: Status)
    ensures same && status == Connected
  {
    var app := new ChatApp();
    var ws := app.HandleUsernameSubmit("bob");
    ws.readyState := Open;
    app.OnOpen(ws);
    app.OnMessage(ws, UsernameConfirmed("bob"));
    app.OnMessage(ws, UserJoined("carol", t));
    var before := app.State();
    app.OnMessage(ws, Malformed);
    app.OnMessage(ws, Unknown("typing"));
    same, status := app.State() == before, app.connectionStatus;
  }

  /**
   * A failed first attempt shows the error screen with no reconnect (no
   * name was confirmed); "Try Again" then only clears the error.
   */
  method FailedFirstAttemptThenRetry()
    returns (failedScreen: Screen, armed: bool, retried: bool, retryScreen: Screen)
    ensures failedScreen == ErrorScreen && !armed
    ensures !retried && retryScreen == UsernameScreen
  {
    var app := new ChatApp();
    var ws := app.HandleUsernameSubmit("bob");
    ws.readyState := Closed;
    app.OnError(ws);
    app.OnClose(ws, 1006);
    failedScreen, armed := SelectScreen(app.username, app.connectionStatus, app.error), app.timerArmed;
    var again := app.Retry();
    retried := again != null;
    retryScreen := SelectScreen(app.username, app.connectionStatus, app.error);
  }

  /**
   * The username form stays on screen while a first connection opens, so a
   * second submit starts a second socket. If the first fails (its `onerror`
   * and `onclose` run back to back) and the second then opens, the status
   * goes from disconnected straight to connected.
   */
  method DoubleSubmit()
    returns (failedStatus: Status, openedStatus: Status, held: bool)
    ensures failedStatus == Disconnected && openedStatus == Connected && held
  {
    var app := new ChatApp();
    var first := app.HandleUsernameSubmit("bob");
    var second := app.HandleUsernameSubmit("bob");
    first.readyState := Closed;
    app.OnError(first);
    app.OnClose(first, 1006);
    failedStatus := app.connectionStatus;
    second.readyState := Open;
    app.OnOpen(second);
    openedStatus, held := app.connectionStatus, app.socket == second;
  }

  /**
   * Two sockets that both open: the second replaces the first, which the
   * socket effect closes. When the first's `onclose` then arrives, whatever
   * its code, it clears the live second socket, which the socket effect
   * closes in turn.
   */
  method StaleCloseDropsLiveSocket(code: int)
    returns (replacedState: ReadyState, lateStatus: Status, held: bool, secondState: ReadyState)
    ensures replacedState == Closing
    ensures lateStatus == Disconnected && !held && secondState == Closing
  {
    var app := new ChatApp();
    var first := app.HandleUsernameSubmit("bob");
    var second := app.HandleUsernameSubmit("bob");
    first.readyState := Open;
    app.OnOpen(first);
    second.readyState := Open;
    app.OnOpen(second);
    replacedState := first.readyState;
    first.readyState := Closed;
    app.OnClose(first, code);
    lateStatus, held, secondState := app.connectionStatus, app.socket != null, second.readyState;
  }
}
