/** The client's connection machine (src/client/index.ts) as one value. */
module ClientSpec {
  import opened Prelude

  type Sock = nat

  const MAX_RECONNECT_ATTEMPTS := 10
  const MAX_BUFFER_BYTES := 1_048_576
  const CONSENTED := 4000

  datatype State = Connecting | Open | Reconnecting | Closed

  datatype Cause = Consented | Auth | SessionRejected | ReconnectFailed | BufferOverflow | InitialConnectFailed | Server

  /** An outbound message, with the byte size the buffer accounts for. */
  datatype Message = Message(payload: string, byteSize: nat, reliable: bool)

  /** A websocket the client made: whether its close event is still to come,
      whether the client's handlers are attached, and what was passed to send. */
  datatype Ws = Ws(isReconnect: bool, live: bool, wired: bool, sent: seq<Message>)

  /** The fields from `socks` on are history: the sockets in the order they were
      made, the reliable messages accepted by send, the calls of onClose with
      the last cause, sockets opened since the last session, and whether the app
      called close. */
  datatype World = World(
    state: State,
    ws: Option<Sock>,
    hasToken: bool,
    retryCount: nat,
    uptimeTimer: bool,
    backoffTimer: bool,
    initialAuthFailed: bool,
    consentedClose: bool,
    buffer: seq<Message>,
    bufferBytes: nat,
    sockets: map<Sock, Ws>,
    socks: seq<Sock>,
    accepted: seq<Message>,
    closes: nat,
    cause: Option<Cause>,
    attempts: nat,
    closeCalled: bool)

  /** connect() opens the first socket. */
  function Init(s: Sock): World {
    World(Connecting, Some(s), false, 0, false, false, false, false, [], 0,
          map[s := Ws(false, true, true, [])], [s], [], 0, None, 0, false)
  }

  function EnterClosed(w: World, cause: Cause): World {
    w.(state := Closed, uptimeTimer := false, backoffTimer := false, ws := None, buffer := [], bufferBytes := 0,
       closes := w.closes + 1, cause := Some(cause))
  }

  function BufferReliable(w: World, m: Message): World {
    var w1 := w.(buffer := w.buffer + [m], bufferBytes := w.bufferBytes + m.byteSize);
    if w1.bufferBytes > MAX_BUFFER_BYTES then EnterClosed(w1, BufferOverflow) else w1
  }

  function Push(x: Ws, ms: seq<Message>): Ws { x.(sent := x.sent + ms) }

  function Send(w: World, m: Message): World {
    if w.state == Open && w.ws.Some? then
      if w.ws.value !in w.sockets then w else
      var w1 := w.(sockets := w.sockets[w.ws.value := Push(w.sockets[w.ws.value], [m])]);
      if m.reliable then w1.(accepted := w.accepted + [m]) else w1
    else if (w.state == Connecting || w.state == Reconnecting) && m.reliable then
      BufferReliable(w.(accepted := w.accepted + [m]), m)
    else w
  }

  function Detach(w: World, s: Sock): World {
    if s in w.sockets then w.(sockets := w.sockets[s := w.sockets[s].(wired := false)]) else w
  }

  /** close(): on an open connection the socket is asked to close and the rest
      happens in its close event; otherwise the connection is closed at once. */
  function Close(w: World): World {
    var w0 := w.(closeCalled := true);
    match w.state
    case Closed => w
    case Open => if w.ws.Some? then w0.(consentedClose := true) else w0
    case Reconnecting => EnterClosed(if w.ws.Some? then Detach(w0, w.ws.value) else w0, Consented)
    case Connecting => if w.ws.Some? then EnterClosed(Detach(w0, w.ws.value), Consented) else w0
  }

  function StartReconnect(w: World): World {
    if w.state != Reconnecting then w
    else if w.retryCount >= MAX_RECONNECT_ATTEMPTS then EnterClosed(w, ReconnectFailed)
    else w.(retryCount := w.retryCount + 1, backoffTimer := true)
  }

  /** The session message: reconnection confirmed, or first connect confirmed. */
  function OnSession(w: World, s: Sock): World
    requires s in w.sockets
  {
    var w1 := w.(hasToken := true);
    if w.state == (if w.sockets[s].isReconnect then Reconnecting else Connecting) then
      w1.(state := Open, retryCount := if w.sockets[s].isReconnect then 0 else w.retryCount,
          uptimeTimer := true, attempts := 0,
          sockets := w.sockets[s := Push(w.sockets[s], w.buffer)], buffer := [], bufferBytes := 0)
    else w1
  }

  function OnAuthError(w: World, s: Sock): World
    requires s in w.sockets
  {
    if w.sockets[s].isReconnect && w.state == Reconnecting then EnterClosed(w, SessionRejected)
    else w.(initialAuthFailed := true)
  }

  /** What the app may do inside its onDrop handler. */
  datatype Call = CallSend(m: Message) | CallClose

  function Calls(w: World, calls: seq<Call>): World
    decreases |calls|
  {
    if calls == [] then w
    else
      var w1 := Calls(w, calls[..|calls| - 1]);
      match calls[|calls| - 1]
      case CallSend(m) => Send(w1, m)
      case CallClose => Close(w1)
  }

  /** A live connection lost its socket; `longUptime` says that it had been open
      for the minimum uptime, `calls` is what the app does in onDrop. */
  function Dropped(w: World, code: int, longUptime: bool, calls: seq<Call>): World {
    if code == CONSENTED then EnterClosed(w, if w.consentedClose then Consented else Server)
    else if w.hasToken then
      var w1 := w.(state := Reconnecting, ws := None, retryCount := if longUptime then 0 else w.retryCount);
      StartReconnect(Calls(w1, calls))
    else EnterClosed(w, Server)
  }

  /** The close event of socket s. */
  function OnClose(w: World, s: Sock, code: int, longUptime: bool, calls: seq<Call>): World
    requires s in w.sockets
  {
    var w1 := w.(uptimeTimer := false, sockets := w.sockets[s := w.sockets[s].(live := false)]);
    match w.state
    case Closed => w1
    case Connecting => EnterClosed(w1, if w.initialAuthFailed then Auth else InitialConnectFailed)
    case Reconnecting => StartReconnect(w1)
    case Open => Dropped(w1, code, longUptime, calls)
  }

  /** The backoff timer fires: the next attempt's socket is made. */
  function OnBackoff(w: World, s: Sock): World {
    var w1 := w.(backoffTimer := false);
    if w.state != Reconnecting then w1
    else if !w.hasToken then EnterClosed(w1, Server)
    else
      w1.(ws := Some(s), sockets := w.sockets[s := Ws(true, true, true, [])], socks := w.socks + [s],
          attempts := w.attempts + 1)
  }

  datatype Event =
    | EvSession(s: Sock)
    | EvAuthError(s: Sock)
    | EvClose(s: Sock, code: int, longUptime: bool, calls: seq<Call>)
    | EvUptime
    | EvBackoff(s: Sock)
    | EvSend(m: Message)
    | EvCloseCall

  /** Events come from attached sockets whose close event is still to come; timers
      fire while they are set; a new socket is new. */
  predicate Enabled(w: World, e: Event) {
    match e
    case EvSession(s) => s in w.sockets && w.sockets[s].live && w.sockets[s].wired
    case EvAuthError(s) => s in w.sockets && w.sockets[s].live && w.sockets[s].wired
    case EvClose(s, _, _, _) => s in w.sockets && w.sockets[s].live && w.sockets[s].wired
    case EvUptime => w.uptimeTimer
    case EvBackoff(s) => w.backoffTimer && s !in w.sockets
    case EvSend(m) => true
    case EvCloseCall => true
  }

  function Step(w: World, e: Event): World
    requires Enabled(w, e)
  {
    match e
    case EvSession(s) => OnSession(w, s)
    case EvAuthError(s) => OnAuthError(w, s)
    case EvClose(s, code, longUptime, calls) => OnClose(w, s, code, longUptime, calls)
    case EvUptime => w.(uptimeTimer := false, retryCount := 0)
    case EvBackoff(s) => OnBackoff(w, s)
    case EvSend(m) => Send(w, m)
    case EvCloseCall => Close(w)
  }
}
