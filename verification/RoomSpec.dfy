/** The room engine together with its websocket transport, as one value and the
    functions that step it (src/room/start.ts, src/room/transport/ws.ts).

    Sockets are named by numbers, client ids and session tokens by strings. A
    record of a client (`TrackedClient` in the source) outlives its place in the
    source's `Map`, because timers, continuations and user code may still hold it:
    `records` has the latest admission of each client id, `earlier` those before;
    `clients` is the key set of the `Map`, whose values are latest admissions. */
module RoomSpec {
  import opened Prelude

  type ClientId = string
  type Token = string
  type Sock = nat
  type Bytes = seq<nat>

  datatype ReadyState = Open | Closing | Closed

  datatype Frame =
    | User(payload: Bytes, reliable: bool)
    | Session(token: Token, clientId: ClientId)
    | AuthError(error: string)

  /** One websocket. `wire` is everything passed to `ws.send`; `lost` is every
      reliable message addressed to the owner while this was its socket but was
      no longer open, which the transport drops silently. */
  datatype Ws = Ws(owner: ClientId, ready: ReadyState, wire: seq<Frame>, lost: seq<Bytes>)

  /** A tracked client. `timer` is the disconnect timer it knows of, `strays` are
      running ones that it no longer refers to. The fields from `socks` on are history: the sockets it
      had, the reliable messages addressed to it since it joined, and how often
      onLeave and client-disconnected were fired for it. */
  datatype Tracked = Tracked(
    token: Token,
    socket: Option<Sock>,
    buffer: seq<Bytes>,
    bufferBytes: nat,
    timer: bool,
    strays: nat,
    alive: bool,
    pendingDrops: nat,
    dropThrew: bool,
    socks: seq<Sock>,
    addressed: seq<Bytes>,
    leaves: nat,
    disconnects: nat)

  /** An admission of a client id that a later one has replaced. */
  datatype Admission = Admission(id: ClientId, r: Tracked)

  datatype Config = Config(maxBufferBytes: nat, hasOnDrop: bool)

  datatype World = World(
    alive: bool,
    stopped: bool,
    records: map<ClientId, Tracked>,
    clients: set<ClientId>,
    tokens: map<Token, ClientId>,
    conns: map<Sock, ClientId>,
    clientSockets: map<ClientId, Sock>,
    subs: set<Sock>,
    ws: map<Sock, Ws>,
    pending: map<Sock, ClientId>,
    issued: set<Token>,
    earlier: seq<Admission>)

  const Init := World(true, false, map[], {}, map[], map[], map[], {}, map[], map[], {}, [])

  const CONSENTED := 4000

  // --- sockets ---

  function SendWs(x: Ws, f: Frame): Ws {
    if x.ready == Open then x.(wire := x.wire + [f])
    else if f.User? && f.reliable then x.(lost := x.lost + [f.payload])
    else x
  }

  function CloseWs(x: Ws): Ws {
    if x.ready == Open then x.(ready := Closing) else x
  }

  function SendTo(w: World, s: Sock, f: Frame): World
    requires s in w.ws
  {
    w.(ws := w.ws[s := SendWs(w.ws[s], f)])
  }

  function CloseSocket(w: World, s: Sock): World
    requires s in w.ws
  {
    w.(ws := w.ws[s := CloseWs(w.ws[s])])
  }

  /** A new connection takes over its client id: whatever socket was mapped is
      stripped of its subscriptions and its connection state. */
  function CompleteUpgrade(w: World, id: ClientId, s: Sock): World {
    var w1 :=
      if id in w.clientSockets then
        var previous := w.clientSockets[id];
        w.(subs := if previous in w.conns then w.subs - {previous} else w.subs, conns := w.conns - {previous})
      else w;
    w1.(conns := w1.conns[s := id],
        clientSockets := w1.clientSockets[id := s],
        ws := w1.ws[s := Ws(id, Open, [], [])])
  }

  // --- clients ---

  function Dead(r: Tracked): Tracked {
    r.(alive := false, timer := false, buffer := [], bufferBytes := 0,
       leaves := r.leaves + 1, disconnects := r.disconnects + 1)
  }

  function Evict(w: World, id: ClientId): World
    requires id in w.records
    requires w.records[id].socket.Some? ==> w.records[id].socket.value in w.ws
  {
    var r := w.records[id];
    if !r.alive then w else
    var w1 := w.(records := w.records[id := Dead(r)],
                 tokens := w.tokens - {r.token},
                 clients := w.clients - {id});
    if r.socket.Some? then CloseSocket(w1, r.socket.value) else w1
  }

  function Buffer(r: Tracked, p: Bytes): Tracked {
    r.(buffer := r.buffer + [p], bufferBytes := r.bufferBytes + |p|)
  }

  function BufferFor(cfg: Config, w: World, id: ClientId, p: Bytes): World
    requires id in w.records
    requires w.records[id].socket.None?
  {
    var r := Buffer(w.records[id], p);
    var w1 := w.(records := w.records[id := r]);
    if r.bufferBytes > cfg.maxBufferBytes then Evict(w1, id) else w1
  }

  function Address(r: Tracked, p: Bytes, reliable: bool): Tracked {
    if reliable then r.(addressed := r.addressed + [p]) else r
  }

  ghost predicate HasSocket(w: World, id: ClientId) {
    id in w.records && (w.records[id].socket.Some? ==> w.records[id].socket.value in w.ws)
  }

  // --- the handle's verbs ---

  function Send(cfg: Config, w: World, id: ClientId, p: Bytes, reliable: bool): World
    requires HasSocket(w, id)
  {
    var r := w.records[id];
    if !r.alive || !w.alive then w else
    var w1 := w.(records := w.records[id := Address(r, p, reliable)]);
    if r.socket.Some? then SendTo(w1, r.socket.value, User(p, reliable))
    else if reliable then BufferFor(cfg, w1, id, p)
    else w1
  }

  function AllowReconnection(w: World, id: ClientId): World
    requires id in w.records
  {
    var r := w.records[id];
    if !r.alive || r.socket.Some? then w
    else w.(records := w.records[id := r.(timer := true, strays := r.strays + if r.timer then 1 else 0)])
  }

  function TimerFires(w: World, id: ClientId): World
    requires HasSocket(w, id)
  {
    Evict(w.(records := w.records[id := w.records[id].(timer := false)]), id)
  }

  /** A stray fires: it drops the reference to the timer there is now, which goes
      on running, and evicts. */
  function StrayFires(w: World, id: ClientId): World
    requires HasSocket(w, id) && w.records[id].strays > 0
  {
    var r := w.records[id];
    Evict(w.(records := w.records[id := r.(timer := false, strays := if r.timer then r.strays else r.strays - 1)]), id)
  }

  // --- broadcast ---

  /** What one broadcast does to the record of one addressed client. */
  function Deliver(cfg: Config, r: Tracked, p: Bytes, reliable: bool): Tracked {
    var a := Address(r, p, reliable);
    if r.socket.Some? || !reliable then a
    else
      var b := Buffer(a, p);
      if b.bufferBytes > cfg.maxBufferBytes then Dead(b) else b
  }

  ghost predicate IsCurrent(w: World, s: Sock, ids: set<ClientId>) {
    exists c :: c in ids && c in w.records && w.records[c].socket == Some(s)
  }

  ghost function Overflowed(cfg: Config, w: World, ids: set<ClientId>, p: Bytes, reliable: bool): set<ClientId> {
    set c | c in ids && c in w.records && !Deliver(cfg, w.records[c], p, reliable).alive
  }

  ghost function TokensOf(w: World, ids: set<ClientId>): set<Token> {
    set c | c in ids && c in w.records :: w.records[c].token
  }

  /** Records, client map and token index after a broadcast to `ids`. */
  ghost function Delivered(cfg: Config, w: World, ids: set<ClientId>, p: Bytes, reliable: bool): World {
    var gone := Overflowed(cfg, w, ids, p, reliable);
    w.(records := map c | c in w.records :: if c in ids then Deliver(cfg, w.records[c], p, reliable) else w.records[c],
       clients := w.clients - gone,
       tokens := w.tokens - TokensOf(w, gone))
  }

  /** One message to every client of `ids`: sent to its socket or buffered. */
  ghost function Multicast(cfg: Config, w: World, ids: set<ClientId>, p: Bytes, reliable: bool): World {
    Delivered(cfg, w, ids, p, reliable).(
      ws := map s | s in w.ws ::
        if IsCurrent(w, s, ids) then SendWs(w.ws[s], User(p, reliable)) else w.ws[s])
  }

  /** The loop over tracked clients, sending or buffering one by one. */
  ghost function BroadcastLoop(cfg: Config, w: World, p: Bytes, reliable: bool, except: set<ClientId>): World {
    if w.alive then Multicast(cfg, w, w.clients - except, p, reliable) else w
  }

  /** What the transport's publish does to one socket, with the bookkeeping of
      messages addressed to a client whose socket is no longer open. */
  ghost function PublishWs(w: World, s: Sock, p: Bytes, reliable: bool): Ws
    requires s in w.ws
  {
    var x := w.ws[s];
    if x.ready == Open then
      if s in w.subs then x.(wire := x.wire + [User(p, reliable)]) else x
    else if IsCurrent(w, s, w.clients) then SendWs(x, User(p, reliable))
    else x
  }

  /** One publish to the topic, then buffering for the disconnected. */
  ghost function BroadcastFast(cfg: Config, w: World, p: Bytes, reliable: bool): World {
    if !w.alive then w else
    Delivered(cfg, w, w.clients, p, reliable).(
      ws := map s | s in w.ws :: PublishWs(w, s, p, reliable))
  }

  ghost function Broadcast(cfg: Config, w: World, p: Bytes, reliable: bool, except: Option<set<ClientId>>): World {
    match except
    case None => BroadcastFast(cfg, w, p, reliable)
    case Some(ids) => BroadcastLoop(cfg, w, p, reliable, ids)
  }

  // --- transport events ---

  /** The upgrade is completed first and refused afterwards. */
  function Refuse(w: World, id: ClientId, s: Sock, error: string): World {
    CloseSocket(SendTo(CompleteUpgrade(w, id, s), s, AuthError(error)), s)
  }

  /** A fresh open up to the awaited onAuth: a client id that is tracked is refused. */
  function OpenStart(w: World, id: ClientId, s: Sock): World {
    if id in w.clients then Refuse(w, id, s, "seat already in use")
    else
      var w1 := CompleteUpgrade(w, id, s);
      w1.(pending := w1.pending[s := id])
  }

  function NewTracked(token: Token, s: Sock): Tracked {
    Tracked(token, Some(s), [], 0, false, 0, true, 0, false, [s], [], 0, 0)
  }

  /** onAuth resolved with ok: the client is admitted. */
  function AuthOk(w: World, s: Sock, token: Token): World
    requires s in w.pending && s in w.ws
  {
    var id := w.pending[s];
    SendTo(w.(tokens := w.tokens[token := id],
              issued := w.issued + {token},
              earlier := if id in w.records then w.earlier + [Admission(id, w.records[id])] else w.earlier,
              records := w.records[id := NewTracked(token, s)],
              clients := w.clients + {id},
              subs := w.subs + {s},
              pending := w.pending - {s}),
           s, Session(token, id))
  }

  function AuthFail(w: World, s: Sock): World
    requires s in w.ws
  {
    CloseSocket(SendTo(w.(pending := w.pending - {s}), s, AuthError("rejected")), s)
  }

  function Frames(buffer: seq<Bytes>): (r: seq<Frame>)
    ensures |r| == |buffer|
  {
    seq(|buffer|, i requires 0 <= i < |buffer| => User(buffer[i], true))
  }

  /** The buffer flush of a reconnect, in one go. */
  function Flush(x: Ws, buffer: seq<Bytes>): Ws {
    if x.ready == Open then x.(wire := x.wire + Frames(buffer)) else x.(lost := x.lost + buffer)
  }

  function Resume(w: World, id: ClientId, s: Sock, token: Token): World
    requires id in w.records && s in w.ws
  {
    var r := w.records[id];
    var w1 := w.(records := w.records[id := r.(timer := false, socket := Some(s), token := token,
                                               buffer := [], bufferBytes := 0, socks := r.socks + [s])],
                 subs := w.subs + {s},
                 tokens := (w.tokens - {r.token})[token := id],
                 issued := w.issued + {token},
                 ws := w.ws[s := Flush(w.ws[s], r.buffer)]);
    SendTo(w1, s, Session(token, id))
  }

  /** The client is tracked and has a socket. */
  predicate Connected(w: World, id: ClientId) {
    id in w.clients && id in w.records && w.records[id].socket.Some?
  }

  /** The client is tracked and waits to be resumed. */
  predicate Waiting(w: World, id: ClientId) {
    id in w.clients && id in w.records && w.records[id].socket.None?
  }

  predicate ValidSession(w: World, param: Token) { param in w.tokens && Waiting(w, w.tokens[param]) }

  /** The client id that `upgrade` makes of a session parameter: a valid session's
      client, otherwise the parameter itself. */
  function Resolve(w: World, param: Token): ClientId { if ValidSession(w, param) then w.tokens[param] else param }

  /** upgrade, completeUpgrade and reconnect as one step: the client the parameter
      stands for is resumed if it waits, otherwise the new socket is told off. */
  function Reconnect(w: World, param: Token, s: Sock, token: Token): World {
    var id := Resolve(w, param);
    if Waiting(w, id) then Resume(CompleteUpgrade(w, id, s), id, s, token)
    else Refuse(w, id, s, "invalid session")
  }

  /** A `leave` protocol message arrived on socket s. */
  function Leave(w: World, s: Sock): World {
    if s in w.conns && w.conns[s] in w.clientSockets && w.clientSockets[w.conns[s]] == s
       && w.conns[s] in w.clients && w.conns[s] in w.records
       && w.records[w.conns[s]].socket.Some? && w.records[w.conns[s]].socket.value in w.ws
    then CloseSocket(w, w.records[w.conns[s]].socket.value)
    else w
  }

  function HandleClose(cfg: Config, w: World, id: ClientId, code: int): World
    requires id in w.clients ==> HasSocket(w, id)
  {
    if id !in w.clients then w
    else if code == CONSENTED || !cfg.hasOnDrop then Evict(w, id)
    else
      var r := w.records[id];
      w.(records := w.records[id := r.(socket := None, pendingDrops := r.pendingDrops + 1)])
  }

  /** The close event of socket s, behind the generation guard. */
  function WsClose(cfg: Config, w: World, s: Sock, code: int): World
    requires s in w.ws
    requires forall c :: c in w.clients ==> HasSocket(w, c)
  {
    var w1 := w.(subs := w.subs - {s}, conns := w.conns - {s}, ws := w.ws[s := w.ws[s].(ready := Closed)]);
    if s in w.conns && w.conns[s] in w.clientSockets && w.clientSockets[w.conns[s]] == s then
      var id := w.conns[s];
      assert id in w.clients ==> HasSocket(w, id);
      HandleClose(cfg, w1.(clientSockets := w1.clientSockets - {id}), id, code)
    else w1
  }

  /** The continuation after the awaited onDrop. */
  function DropDone(w: World, id: ClientId): World
    requires HasSocket(w, id) && w.records[id].pendingDrops > 0
  {
    var r := w.records[id];
    var w1 := w.(records := w.records[id := r.(pendingDrops := r.pendingDrops - 1)]);
    if !r.timer && r.socket.None? && id in w.clients then Evict(w1, id) else w1
  }

  /** onDrop rejected: the source logs the error and does nothing else. */
  function DropThrew(w: World, id: ClientId): World
    requires id in w.records && w.records[id].pendingDrops > 0
  {
    var r := w.records[id];
    w.(records := w.records[id := r.(pendingDrops := r.pendingDrops - 1, dropThrew := true)])
  }

  // --- stop ---

  /** Everything after the awaited onShutdown: the map is cleared first, every
      client gets its onLeave, and every connection is closed. */
  ghost function StopFinish(w: World): World {
    w.(records := map c | c in w.records :: if c in w.clients then Dead(w.records[c]) else w.records[c],
       clients := {},
       tokens := map[],
       ws := map s | s in w.ws ::
         if s in w.conns || IsCurrent(w, s, w.clients) then CloseWs(w.ws[s]) else w.ws[s],
       stopped := true)
  }

  // --- runs ---

  datatype Event =
    | EvOpen(id: ClientId, s: Sock)
    | EvAuthOk(s: Sock, token: Token)
    | EvAuthFail(s: Sock)
    | EvReconnect(param: Token, s: Sock, token: Token)
    | EvLeave(s: Sock)
    | EvPeerClosing(s: Sock)
    | EvClose(s: Sock, code: int)
    | EvDropDone(id: ClientId)
    | EvDropThrew(id: ClientId)
    | EvAllow(id: ClientId)
    | EvTimer(id: ClientId)
    | EvStray(id: ClientId)
    | EvDisconnect(id: ClientId)
    | EvSend(id: ClientId, p: Bytes, reliable: bool)
    | EvEarlier(k: nat, e: Event)
    | EvBroadcast(p: Bytes, reliable: bool, except: Option<set<ClientId>>)
    | EvStopBegin
    | EvStopFinish

  /** What comes through one admission: its timers, the continuation of its
      onDrop, and the verbs of its handle. */
  predicate OfHandle(e: Event) {
    || e.EvDropDone? || e.EvDropThrew? || e.EvAllow? || e.EvTimer? || e.EvStray? || e.EvDisconnect? || e.EvSend?
  }

  predicate HandlePossible(w: World, e: Event)
    requires OfHandle(e)
  {
    && e.id in w.records
    && (e.EvDropDone? || e.EvDropThrew? ==> w.records[e.id].pendingDrops > 0)
    && (e.EvTimer? ==> w.records[e.id].timer) && (e.EvStray? ==> w.records[e.id].strays > 0)
  }

  function HandleStep(cfg: Config, w: World, e: Event): (w': World)
    requires OfHandle(e) && HandlePossible(w, e) && HasSocket(w, e.id)
    ensures w'.records.Keys == w.records.Keys
  {
    match e
    case EvDropDone(id) => DropDone(w, id)
    case EvDropThrew(id) => DropThrew(w, id)
    case EvAllow(id) => AllowReconnection(w, id)
    case EvTimer(id) => TimerFires(w, id)
    case EvStray(id) => StrayFires(w, id)
    case EvDisconnect(id) => Evict(w, id)
    case EvSend(id, p, reliable) => Send(cfg, w, id, p, reliable)
  }

  /** The world as admission k sees it, its record being the one at hand. */
  function AsLatest(w: World, k: nat): World
    requires k < |w.earlier|
  {
    w.(records := w.records[w.earlier[k].id := w.earlier[k].r])
  }

  /** What an earlier admission does is done to its own record and, by its client
      id, to the map: an eviction deletes the id, whoever is behind it. */
  function OnEarlier(cfg: Config, w: World, k: nat, e: Event): World
    requires k < |w.earlier| && OfHandle(e) && e.id == w.earlier[k].id && e.id in w.records
    requires HandlePossible(AsLatest(w, k), e) && HasSocket(AsLatest(w, k), e.id)
  {
    var w1 := HandleStep(cfg, AsLatest(w, k), e);
    w1.(records := w1.records[e.id := w.records[e.id]], earlier := w.earlier[k := Admission(e.id, w1.records[e.id])])
  }

  /** What the environment may do: sockets and tokens are fresh. Any client id may
      be opened at any time, any parameter presented, any socket die, any window be
      opened, and the stop may complete at any time. */
  predicate Possible(w: World, e: Event) {
    match e
    case EvOpen(id, s) => !w.stopped && s !in w.ws
    case EvAuthOk(s, token) => s in w.pending && token !in w.issued
    case EvAuthFail(s) => s in w.pending
    case EvReconnect(param, s, token) => !w.stopped && s !in w.ws && token !in w.issued
    case EvLeave(s) => s in w.ws && w.ws[s].ready == Open
    case EvPeerClosing(s) => s in w.ws && w.ws[s].ready == Open
    case EvClose(s, code) => s in w.ws && w.ws[s].ready != Closed
    case EvEarlier(k, h) =>
      k < |w.earlier| && OfHandle(h) && h.id == w.earlier[k].id && HandlePossible(AsLatest(w, k), h)
    case EvBroadcast(p, reliable, except) => true
    case EvStopBegin => w.alive
    case EvStopFinish => !w.alive && !w.stopped
    case _ => HandlePossible(w, e)
  }

  /** The event upgrades a socket for the client id. */
  predicate Upgrades(w: World, e: Event, id: ClientId) {
    match e
    case EvOpen(i, _) => i == id
    case EvReconnect(param, _, _) => Resolve(w, param) == id
    case _ => false
  }

  /** An upgrade for a client that is connected or being authorised: the transport
      takes its socket's place away. */
  predicate TakesOver(w: World, e: Event) {
    match e
    case EvOpen(id, _) => Connected(w, id) || id in w.pending.Values
    case EvReconnect(param, _, _) => Connected(w, Resolve(w, param)) || Resolve(w, param) in w.pending.Values
    case _ => false
  }

  /** A socket dies, or the room stops, while its onAuth is pending. */
  predicate DiesUnadmitted(w: World, e: Event) {
    (e.EvClose? && e.s in w.pending) || (e.EvStopFinish? && w.pending != map[])
  }

  /** A reconnection window is opened while one is open, or has been (StraysNeedASecondWindow). */
  predicate Reopens(w: World, e: Event) { (e.EvAllow? && e.id in w.records && w.records[e.id].timer) || e.EvStray? }

  /** The orderly steps, which keep the invariant. */
  predicate Enabled(w: World, e: Event) {
    Possible(w, e) && !TakesOver(w, e) && !DiesUnadmitted(w, e) && !Reopens(w, e)
  }

  predicate HasEarlier(w: World, a: Admission) {
    a.id in w.records && (a.r.socket.Some? ==> a.r.socket.value in w.ws)
  }

  /** Every socket the engine refers to exists; what `Step` needs to be defined. */
  ghost predicate Grounded(w: World) {
    && w.clients <= w.records.Keys
    && (forall c :: c in w.records ==> HasSocket(w, c))
    && (forall k {:trigger w.earlier[k]} :: 0 <= k < |w.earlier| ==> HasEarlier(w, w.earlier[k]))
    && (forall s :: s in w.pending ==> s in w.ws)
  }

  ghost function Step(cfg: Config, w: World, e: Event): World
    requires Grounded(w) && Possible(w, e)
  {
    match e
    case EvOpen(id, s) => OpenStart(w, id, s)
    case EvAuthOk(s, token) => AuthOk(w, s, token)
    case EvAuthFail(s) => AuthFail(w, s)
    case EvReconnect(param, s, token) => Reconnect(w, param, s, token)
    case EvLeave(s) => Leave(w, s)
    case EvPeerClosing(s) => CloseSocket(w, s)
    case EvClose(s, code) => WsClose(cfg, w, s, code)
    case EvEarlier(k, h) => OnEarlier(cfg, w, k, h)
    case EvBroadcast(p, reliable, except) => Broadcast(cfg, w, p, reliable, except)
    case EvStopBegin => w.(alive := false)
    case EvStopFinish => StopFinish(w)
    case _ => HandleStep(cfg, w, e)
  }
}
