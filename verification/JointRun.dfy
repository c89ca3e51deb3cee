/** One client and its room together (src/client/index.ts, src/room/start.ts,
    src/room/transport/ws.ts): the client's machine, the room's engine and the
    sockets between them, which carry frames late, in order, or not at all. */
module JointRun {
  import opened Prelude
  import R = RoomSpec
  import RI = RoomInvariant
  import RT = RoomWires
  import C = ClientSpec
  import CP = ClientProofs
  import P = Parts

  /** A socket has one number on both sides. `params` is the session token each
      reconnecting socket was made with, `heard` counts the frames the client has
      taken off a socket, `seen` the messages the room has; `got` and `roomGot`
      are the reliable messages handed to the user code of either side, `taken`
      the room's share of each socket. */
  datatype World = World(
    room: R.World,
    client: C.World,
    token: Option<R.Token>,
    params: map<nat, R.Token>,
    heard: map<nat, nat>,
    got: seq<R.Bytes>,
    seen: map<nat, nat>,
    taken: map<nat, seq<C.Message>>,
    roomGot: seq<C.Message>)

  function Start(s0: nat): World {
    World(R.Init, C.Init(s0), None, map[], map[s0 := 0], [], map[s0 := 0], map[s0 := []], [])
  }

  datatype Event =
    | Room(e: R.Event)               // whatever else happens at the room
    | Client(k: C.Event)             // the app, the timers, a socket's close event
    | Arrive(s: nat, token: R.Token) // the request that opened socket s reaches the room
    | Hear(s: nat)                   // the client takes a frame off socket s
    | Read(s: nat)                   // the room takes a message off socket s

  /** The upgrade that the client's socket s asks for. */
  function Upgrade(w: World, c: R.ClientId, s: nat, token: R.Token): R.Event
    requires s in w.client.sockets
  {
    if w.client.sockets[s].isReconnect && s in w.params then R.EvReconnect(w.params[s], s, token) else R.EvOpen(c, s)
  }

  /** Random tokens are never anyone's client id. */
  predicate TokensAreNotIds(room: R.World, e: R.Event) {
    match e
    case EvOpen(id, _) => id !in room.issued
    case EvAuthOk(_, token) => token !in room.records && token !in room.pending.Values
    case EvReconnect(_, _, token) => token !in room.records && token !in room.pending.Values
    case _ => true
  }

  /** Nobody else presents the client's id or its session; other sockets have
      other numbers. */
  predicate Enabled(c: R.ClientId, w: World, e: Event) {
    match e
    case Room(x) =>
      && R.Enabled(w.room, x) && TokensAreNotIds(w.room, x) && !R.Upgrades(w.room, x, c)
      && (x.EvOpen? || x.EvReconnect? ==> x.s !in w.client.sockets)
    case Client(k) =>
      C.Enabled(w.client, k) && !k.EvSession? && !k.EvAuthError? && (k.EvBackoff? ==> k.s !in w.room.ws)
    case Arrive(s, token) =>
      && s in w.client.sockets && s !in w.room.ws
      && R.Enabled(w.room, Upgrade(w, c, s, token)) && TokensAreNotIds(w.room, Upgrade(w, c, s, token))
    case Hear(s) =>
      && s in w.client.sockets && CP.Attached(w.client, s)
      && s in w.room.ws && s in w.heard && w.heard[s] < |w.room.ws[s].wire|
    case Read(s) =>
      && s in w.client.sockets && s in w.room.ws && w.room.ws[s].ready != R.Closed
      && s in w.seen && s in w.taken && w.seen[s] < |w.client.sockets[s].sent|
  }

  /** The transport's generation guard and the room's: the socket is the mapped
      one of its client id, and that client has a socket. */
  predicate Accepts(room: R.World, s: nat)
    requires s in room.ws
  {
    RT.Mapped(room, room.ws[s].owner, s) && R.Connected(room, room.ws[s].owner)
  }

  function HearFrame(w: World, s: nat, f: R.Frame): World
    requires s in w.client.sockets && s in w.heard
  {
    var w1 := w.(heard := w.heard[s := w.heard[s] + 1]);
    match f
    case User(p, reliable) => if reliable then w1.(got := w.got + [p]) else w1
    case Session(t, _) => w1.(client := C.OnSession(w.client, s), token := Some(t))
    case AuthError(_) => w1.(client := C.OnAuthError(w.client, s))
  }

  function ReadMessage(w: World, s: nat, m: C.Message): World
    requires s in w.seen && s in w.taken && s in w.room.ws
  {
    var w1 := w.(seen := w.seen[s := w.seen[s] + 1]);
    if Accepts(w.room, s) && m.reliable then
      w1.(taken := w.taken[s := w.taken[s] + [m]], roomGot := w.roomGot + [m])
    else w1
  }

  /** A socket that the client has just made. */
  function Made(w: World, s: nat): World {
    w.(params := w.params[s := if w.token.Some? then w.token.value else ""],
       heard := w.heard[s := 0], seen := w.seen[s := 0], taken := w.taken[s := []])
  }

  function ClientStep(w: World, k: C.Event): World
    requires C.Enabled(w.client, k)
  {
    var w1 := w.(client := C.Step(w.client, k));
    if k.EvBackoff? && k.s in w1.client.sockets then Made(w1, k.s) else w1
  }

  ghost function Step(cfg: R.Config, c: R.ClientId, w: World, e: Event): World
    requires Enabled(c, w, e) && R.Grounded(w.room)
  {
    match e
    case Room(x) => w.(room := R.Step(cfg, w.room, x))
    case Client(k) => ClientStep(w, k)
    case Arrive(s, token) => w.(room := R.Step(cfg, w.room, Upgrade(w, c, s, token)))
    case Hear(s) => HearFrame(w, s, w.room.ws[s].wire[w.heard[s]])
    case Read(s) => ReadMessage(w, s, w.client.sockets[s].sent[w.seen[s]])
  }

  // --- a sequence inside another, seen from the end ---

  ghost predicate Within(a: seq<nat>, b: seq<nat>)
    decreases |b|
  {
    if a == [] then true
    else if b == [] then false
    else if a[|a| - 1] == b[|b| - 1] then Within(a[..|a| - 1], b[..|b| - 1])
    else Within(a, b[..|b| - 1])
  }

  /** What comes before the last occurrence of s. */
  ghost function Before(b: seq<nat>, s: nat): seq<nat>
    decreases |b|
  {
    if b == [] then [] else if b[|b| - 1] == s then b[..|b| - 1] else Before(b[..|b| - 1], s)
  }

  lemma {:induction false} WithinHas(a: seq<nat>, b: seq<nat>, x: nat)
    requires Within(a, b) && x in a
    ensures x in b
    decreases |b|
  {
    if a[|a| - 1] == b[|b| - 1] {
      if x != a[|a| - 1] { WithinHas(a[..|a| - 1], b[..|b| - 1], x); }
    } else {
      WithinHas(a, b[..|b| - 1], x);
    }
  }

  lemma WithinLonger(a: seq<nat>, b: seq<nat>, x: nat)
    requires Within(a, b) && x !in a
    ensures Within(a, b + [x])
  {
    assert (b + [x])[..|b|] == b;
  }

  lemma BeforeLonger(b: seq<nat>, x: nat, s: nat)
    ensures Before(b + [x], s) == if x == s then b else Before(b, s)
  {
    assert (b + [x])[..|b|] == b;
  }

  /** One more that comes after all of a. */
  lemma {:induction false} WithinNext(a: seq<nat>, b: seq<nat>, s: nat)
    requires Within(a, Before(b, s)) && s in b
    ensures Within(a + [s], b)
    decreases |b|
  {
    var k := |b| - 1;
    assert (a + [s])[..|a|] == a;
    if b[k] != s { WithinNext(a, b[..k], s); }
  }

  // --- the invariant ---

  predicate InSocks(w: World, c: R.ClientId, s: nat) {
    c in w.room.records && s in w.room.records[c].socks
  }

  /** A token the client was given: if it still stands, it is the client's. */
  predicate Known(room: R.World, c: R.ClientId, t: R.Token) {
    t in room.issued && (t in room.tokens ==> room.tokens[t] == c)
  }

  ghost predicate Bare(x: R.Ws) {
    RI.Rel(x.wire) == [] && x.lost == [] && forall i :: 0 <= i < |x.wire| ==> !x.wire[i].Session?
  }

  predicate GoodSessions(room: R.World, c: R.ClientId, x: R.Ws) {
    forall i :: 0 <= i < |x.wire| && x.wire[i].Session? ==> Known(room, c, x.wire[i].token)
  }

  /** The room's end of a client's socket. */
  ghost predicate RoomEnd(w: World, c: R.ClientId, s: nat)
    requires s in w.heard
  {
    if s in w.room.ws then
      && w.heard[s] <= |w.room.ws[s].wire| && GoodSessions(w.room, c, w.room.ws[s])
      && (w.room.ws[s].owner == c || w.room.ws[s].owner in w.room.issued)
      && (InSocks(w, c, s) || Bare(w.room.ws[s]))
    else w.heard[s] == 0
  }

  /** The client's end. */
  ghost predicate ClientEnd(w: World, c: R.ClientId, s: nat)
    requires s in w.client.sockets && s in w.seen && s in w.taken
  {
    && w.seen[s] <= |w.client.sockets[s].sent|
    && P.PartOf(w.taken[s], CP.Rel(w.client.sockets[s].sent[..w.seen[s]]))
    && (InSocks(w, c, s) || w.client.sockets[s].sent == [])
  }

  /** A socket made with a token; if the token still is the client's current one,
      the socket was made after all those the client has been on. */
  ghost predicate GoodParam(w: World, c: R.ClientId, s: nat)
    requires s in w.client.sockets
  {
    w.client.sockets[s].isReconnect ==>
      && s in w.params && Known(w.room, c, w.params[s])
      && (c in w.room.records && w.room.records[c].token == w.params[s] ==>
            Within(w.room.records[c].socks, Before(w.client.socks, s)))
  }

  ghost predicate Link(w: World, c: R.ClientId, s: nat)
    requires s in w.client.sockets
  {
    s in w.heard && s in w.seen && s in w.taken && RoomEnd(w, c, s) && ClientEnd(w, c, s) && GoodParam(w, c, s)
  }

  /** Only the newest socket speaks to the client, only the first is no reconnect. */
  ghost predicate GoodSocks(k: C.World) {
    && k.socks != [] && CP.Distinct(k.socks)
    && (forall s :: s in k.socks <==> s in k.sockets)
    && (forall s <- k.sockets :: CP.Attached(k, s) ==> s == k.socks[|k.socks| - 1])
    && (forall s <- k.sockets :: !k.sockets[s].isReconnect ==> s == k.socks[0])
  }

  ghost predicate GoodToken(w: World, c: R.ClientId) {
    && (w.client.hasToken <==> w.token.Some?)
    && (w.token.Some? ==> Known(w.room, c, w.token.value))
    && (w.client.state == C.Open ==> w.client.ws.Some? && InSocks(w, c, w.client.ws.value))
  }

  /** The client's id is opened by its first socket and by nothing else. */
  predicate Opened(w: World, c: R.ClientId)
    requires w.client.socks != []
  {
    && (c in w.room.records || c in w.room.pending.Values ==> w.client.socks[0] in w.room.ws)
    && (c in w.room.pending.Values ==> c !in w.room.records)
    && (forall s <- w.room.pending :: w.room.pending[s] == c ==> s == w.client.socks[0])
  }

  predicate IdsApart(room: R.World) { forall t <- room.issued :: t !in room.records && t !in room.pending.Values }

  /** What the sockets of a client were handed is the beginning of what was
      addressed to it, also after it has left. */
  ghost predicate GoodHanded(room: R.World, c: R.ClientId) {
    c in room.records ==>
      (forall s :: s in room.records[c].socks ==> s in room.ws)
      && RI.HandedAll(room.records[c].socks, room.ws) <= room.records[c].addressed
  }

  ghost function HeardOn(w: World, s: nat): seq<R.Bytes> {
    if s in w.room.ws && s in w.heard && w.heard[s] <= |w.room.ws[s].wire| then
      RI.Rel(w.room.ws[s].wire[..w.heard[s]])
    else []
  }

  ghost function HeardAll(w: World, socks: seq<nat>): seq<R.Bytes> {
    if socks == [] then [] else HeardAll(w, socks[..|socks| - 1]) + HeardOn(w, socks[|socks| - 1])
  }

  function TakenOn(w: World, s: nat): seq<C.Message> { if s in w.taken then w.taken[s] else [] }

  function TakenAll(w: World, socks: seq<nat>): seq<C.Message> {
    if socks == [] then [] else TakenAll(w, socks[..|socks| - 1]) + TakenOn(w, socks[|socks| - 1])
  }

  function SocksOf(room: R.World, c: R.ClientId): seq<nat> { if c in room.records then room.records[c].socks else [] }

  ghost predicate Inv(cfg: R.Config, c: R.ClientId, w: World) {
    && RI.Inv(cfg, w.room) && CP.Inv(w.client)
    && GoodSocks(w.client) && GoodToken(w, c) && Opened(w, c) && IdsApart(w.room) && GoodHanded(w.room, c)
    && Within(SocksOf(w.room, c), w.client.socks)
    && (forall s {:trigger Link(w, c, s)} :: s in w.client.sockets ==> Link(w, c, s))
    && w.got == HeardAll(w, w.client.socks)
    && w.roomGot == TakenAll(w, SocksOf(w.room, c))
  }
}
