/** What each event does, client by client: who gets a message and who does not,
    what an open, a reconnect and a close lead to, and what a stop leaves behind
    (src/room/start.ts, src/room/transport/ws.ts). */
module RoomOutcomes {
  import opened Prelude
  import opened RoomSpec
  import opened RoomInvariant
  import opened RoomSteps
  import opened RoomBroadcast
  import opened RoomRuns
  import opened RoomVerbs
  import opened RoomWires

  // --- one message to one client ---

  /** The client and its sockets do not notice. */
  ghost predicate Unnoticed(w: World, w': World, c: ClientId) {
    && c in w.records && c in w'.records && w'.records[c] == w.records[c]
    && (c in w'.clients <==> c in w.clients)
    && (w.records[c].token in w.tokens ==>
          w.records[c].token in w'.tokens && w'.tokens[w.records[c].token] == w.tokens[w.records[c].token])
    && (forall s :: s in w.ws && w.ws[s].owner == c ==> s in w'.ws && w'.ws[s] == w.ws[s])
  }

  /** A connected client gets the message on its socket, after what it got before;
      a socket that is closing drops it. */
  predicate GetsIt(w: World, w': World, c: ClientId, s: Sock, p: Bytes, reliable: bool) {
    && c in w.records && c in w'.records && c in w'.clients && s in w.ws && s in w'.ws
    && w'.records[c] == w.records[c].(addressed := w.records[c].addressed + if reliable then [p] else [])
    && (w.ws[s].ready == Open ==> w'.ws[s] == w.ws[s].(wire := w.ws[s].wire + [User(p, reliable)]))
    && (w.ws[s].ready != Open ==> w'.ws[s].wire == w.ws[s].wire && w'.ws[s].ready == w.ws[s].ready)
  }

  /** A disconnected client has a reliable message kept for it, behind those kept
      before, unless that is too much: then it leaves. */
  predicate KeptFor(cfg: Config, w: World, w': World, c: ClientId, p: Bytes) {
    && c in w.records && c in w'.records
    && var r, r' := w.records[c], w'.records[c];
      if r.bufferBytes + |p| > cfg.maxBufferBytes
      then c !in w'.clients && !r'.alive && r'.leaves == r.leaves + 1 && r'.buffer == [] && r.token !in w'.tokens
      else
        && c in w'.clients
        && r' == r.(buffer := r.buffer + [p], bufferBytes := r.bufferBytes + |p|, addressed := r.addressed + [p])
  }

  ghost predicate Reached(cfg: Config, w: World, w': World, c: ClientId, p: Bytes, reliable: bool)
    requires c in w.records
  {
    if w.records[c].socket.Some? then GetsIt(w, w', c, w.records[c].socket.value, p, reliable)
    else if reliable then KeptFor(cfg, w, w', c, p)
    else Unnoticed(w, w', c)
  }

  lemma MulticastReaches(cfg: Config, w: World, w': World, ids: set<ClientId>, p: Bytes, reliable: bool, c: ClientId)
    requires Inv(cfg, w) && ids <= w.clients && c in w.clients && w' == Multicast(cfg, w, ids, p, reliable)
    ensures c in w.records && if c in ids then Reached(cfg, w, w', c, p, reliable) else Unnoticed(w, w', c)
  {
    assert GoodClient(cfg, w, c);
    OwnSocketsSpared(cfg, w, w', ids, p, reliable, c);
    if c !in Overflowed(cfg, w, ids, p, reliable) { OthersTokenStays(cfg, w, ids, p, reliable, c); }
    if c in ids && w.records[c].socket.Some? { assert IsCurrent(w, w.records[c].socket.value, ids); }
  }

  lemma OwnSocketsSpared(cfg: Config, w: World, w': World, ids: set<ClientId>, p: Bytes, reliable: bool, c: ClientId)
    requires Inv(cfg, w) && ids <= w.clients && c in w.clients && w' == Multicast(cfg, w, ids, p, reliable)
    requires c in w.records
    ensures forall s :: s in w.ws && w.ws[s].owner == c && (c !in ids || w.records[c].socket != Some(s)) ==>
      s in w'.ws && w'.ws[s] == w.ws[s]
  {
    forall s | s in w.ws && w.ws[s].owner == c && (c !in ids || w.records[c].socket != Some(s))
      ensures s in w'.ws && w'.ws[s] == w.ws[s]
    {
      assert GoodSock(w, s);
      CurrentIff(cfg, w, s, ids);
    }
  }

  lemma BroadcastIsMulticast(cfg: Config, w: World, w': World, p: Bytes, reliable: bool, except: Option<set<ClientId>>)
    requires Inv(cfg, w) && w.alive && w' == Broadcast(cfg, w, p, reliable, except)
    ensures w' == Multicast(cfg, w, w.clients - (if except.Some? then except.value else {}), p, reliable)
  {
    if except.None? { FastPathRefinesLoop(cfg, w, p, reliable); }
  }

  /** A broadcast of a live room reaches every tracked client that is not excluded,
      and an excluded one notices nothing: nothing is sent to it and nothing kept. */
  lemma BroadcastReachesIff(cfg: Config, es: seq<Event>, w: World, w': World, p: Bytes, reliable: bool,
                            except: Option<set<ClientId>>, c: ClientId)
    requires Reaches(cfg, Init, es, w) && Grounded(w) && w.alive && c in w.clients
    requires w' == Step(cfg, w, EvBroadcast(p, reliable, except))
    ensures c in w.records
    ensures except.Some? && c in except.value ==> Unnoticed(w, w', c)
    ensures except.None? || c !in except.value ==> Reached(cfg, w, w', c, p, reliable)
  {
    ReachableInv(cfg, es, w);
    BroadcastReaches(cfg, w, w', p, reliable, except, c);
  }

  lemma BroadcastReaches(cfg: Config, w: World, w': World, p: Bytes, reliable: bool, except: Option<set<ClientId>>,
                         c: ClientId)
    requires Inv(cfg, w) && w.alive && c in w.clients && w' == Broadcast(cfg, w, p, reliable, except)
    ensures c in w.records
    ensures if except.Some? && c in except.value then Unnoticed(w, w', c) else Reached(cfg, w, w', c, p, reliable)
  {
    var ids := w.clients - if except.Some? then except.value else {};
    BroadcastIsMulticast(cfg, w, w', p, reliable, except);
    MulticastReaches(cfg, w, w', ids, p, reliable, c);
  }

  /** A send through the handle reaches its client and nobody else; through the
      handle of a client that has left, or in a stopping room, nobody. */
  lemma SendReachesOne(cfg: Config, es: seq<Event>, w: World, w': World, id: ClientId, p: Bytes, reliable: bool,
                       c: ClientId)
    requires Reaches(cfg, Init, es, w) && Grounded(w) && Possible(w, EvSend(id, p, reliable))
    requires w' == Step(cfg, w, EvSend(id, p, reliable)) && c in w.clients
    ensures c in w.records
    ensures w.alive && c == id ==> Reached(cfg, w, w', c, p, reliable)
    ensures !w.alive || c != id ==> Unnoticed(w, w', c)
    ensures !w.alive || id !in w.clients ==> w' == w
  {
    ReachableInv(cfg, es, w);
    assert GoodClient(cfg, w, c);
    OneSent(cfg, w, w', id, p, reliable);
    if w.alive && id in w.clients { MulticastReaches(cfg, w, w', {id}, p, reliable, c); }
  }

  lemma OneSent(cfg: Config, w: World, w': World, id: ClientId, p: Bytes, reliable: bool)
    requires Inv(cfg, w) && HasSocket(w, id) && w' == Send(cfg, w, id, p, reliable)
    ensures w' == if w.alive && id in w.clients then Multicast(cfg, w, {id}, p, reliable) else w
  {
    assert GoodClient(cfg, w, id);
    if w.alive && id in w.clients { SendIsMulticast(cfg, w, id, p, reliable); }
  }

  // --- opening ---

  /** A socket that is told off and closed, and nothing else on it. */
  predicate ToldOff(x: Ws, error: string) { x.wire == [AuthError(error)] && x.ready == Closing && x.lost == [] }

  /** A first open waits for its onAuth with nothing sent, unless its id is tracked:
      then it is told so and closed, and awaits nothing. */
  lemma OpenWaitsIff(cfg: Config, w: World, w': World, id: ClientId, s: Sock)
    requires Grounded(w) && Possible(w, EvOpen(id, s)) && w' == Step(cfg, w, EvOpen(id, s))
    ensures s in w'.ws && w'.ws[s].owner == id && w'.clients == w.clients && w'.records == w.records
    ensures id in w.clients ==> ToldOff(w'.ws[s], "seat already in use") && w'.pending == w.pending
    ensures id !in w.clients ==> w'.ws[s] == Ws(id, Open, [], []) && w'.pending == w.pending[s := id]
  {
    assert w' == OpenStart(w, id, s);
    if id in w.clients { RefusedUpgrade(w, w', id, s, "seat already in use"); } else { OpenPending(w, w', id, s); }
  }

  lemma OpenPending(w: World, w': World, id: ClientId, s: Sock)
    requires id !in w.clients && w' == OpenStart(w, id, s)
    ensures s in w'.ws && w'.clients == w.clients && w'.records == w.records
    ensures w'.ws[s] == Ws(id, Open, [], []) && w'.pending == w.pending[s := id]
  {
  }

  /** An onAuth that comes back with ok seats the client on its socket and sends it
      its session; otherwise the socket is told off and closed, and nobody seated. */
  lemma AuthSeats(cfg: Config, w: World, w': World, s: Sock, token: Token)
    requires Grounded(w) && Possible(w, EvAuthOk(s, token)) && w' == Step(cfg, w, EvAuthOk(s, token))
    ensures var id := w.pending[s];
      && Connected(w', id) && w'.records[id].socket == Some(s) && w'.records[id].token == token
      && w'.records[id].alive && w'.records[id].buffer == [] && w'.records[id].leaves == 0
      && token in w'.tokens && w'.tokens[token] == id && s in w'.subs && s !in w'.pending
      && (w.ws[s].ready == Open ==> w'.ws[s] == w.ws[s].(wire := w.ws[s].wire + [Session(token, id)]))
      && (forall x :: x in w.ws && x != s ==> w'.ws[x] == w.ws[x])
  {
  }

  lemma RejectionSeatsNobody(cfg: Config, w: World, w': World, s: Sock)
    requires Grounded(w) && Possible(w, EvAuthFail(s)) && w' == Step(cfg, w, EvAuthFail(s))
    ensures w'.clients == w.clients && w'.records == w.records && w'.tokens == w.tokens && w'.pending == w.pending - {s}
    ensures w'.ws.Keys == w.ws.Keys && forall x :: x in w.ws && x != s ==> w'.ws[x] == w.ws[x]
    ensures w.ws[s].ready == Open ==>
      w'.ws[s] == w.ws[s].(wire := w.ws[s].wire + [AuthError("rejected")], ready := Closing)
  {
  }

  // --- reconnecting ---

  /** The waiting client whose token a parameter is; failing that, whose id it is. */
  ghost predicate StandsFor(w: World, param: Token, c: ClientId) {
    Waiting(w, c) && (w.records[c].token == param || (param == c && !TokenOfWaiting(w, param)))
  }

  ghost predicate TokenOfWaiting(w: World, param: Token) {
    exists d :: d in w.clients && Waiting(w, d) && w.records[d].token == param
  }

  /** The client is back: on the new socket it first gets everything kept for it, in
      order, then its new session; the old token is worth nothing any more. */
  predicate Back(w: World, w': World, c: ClientId, s: Sock, token: Token) {
    && Connected(w', c) && c in w.records && s in w'.ws
    && w'.ws[s] == Ws(c, Open, Frames(w.records[c].buffer) + [Session(token, c)], [])
    && w'.records[c].socket == Some(s) && w'.records[c].token == token && w'.records[c].buffer == []
    && !w'.records[c].timer && w'.records[c].alive
    && token in w'.tokens && w'.tokens[token] == c && (w.records[c].token != token ==> w.records[c].token !in w'.tokens)
    && s in w'.subs
  }

  lemma ResumeIsBack(cfg: Config, w: World, w': World, c: ClientId, s: Sock, token: Token)
    requires Inv(cfg, w) && Waiting(w, c) && s !in w.ws
    requires w' == Resume(CompleteUpgrade(w, c, s), c, s, token)
    ensures Back(w, w', c, s, token)
  {
    assert GoodClient(cfg, w, c);
    assert Frames(w.records[c].buffer) == [] + Frames(w.records[c].buffer);
  }

  lemma ResolveIff(cfg: Config, w: World, param: Token, c: ClientId)
    requires Inv(cfg, w)
    ensures Waiting(w, c) && Resolve(w, param) == c <==> StandsFor(w, param, c)
  {
    assert GoodToken(w, param) && GoodClient(cfg, w, c);
    forall d | Waiting(w, d) && w.records[d].token == param ensures ValidSession(w, param) && w.tokens[param] == d {
      assert GoodClient(cfg, w, d);
    }
    if ValidSession(w, param) {
      assert GoodClient(cfg, w, w.tokens[param]) && TokenOfWaiting(w, param);
    }
  }

  /** Reconnecting brings back exactly the waiting client that the parameter stands
      for; a parameter that stands for nobody is told off, and nobody's seat, buffer
      or token changes. */
  lemma ReconnectBringsBackIff(cfg: Config, es: seq<Event>, w: World, w': World, param: Token, s: Sock, token: Token)
    requires Reaches(cfg, Init, es, w) && Grounded(w) && Possible(w, EvReconnect(param, s, token))
    requires w' == Step(cfg, w, EvReconnect(param, s, token))
    ensures forall c :: StandsFor(w, param, c) ==> Back(w, w', c, s, token)
    ensures (forall c :: !StandsFor(w, param, c)) ==>
      s in w'.ws && ToldOff(w'.ws[s], "invalid session")
        && w'.records == w.records && w'.clients == w.clients && w'.tokens == w.tokens
  {
    ReachableInv(cfg, es, w);
    var id := Resolve(w, param);
    ResolveIff(cfg, w, param, id);
    if Waiting(w, id) {
      ResumeIsBack(cfg, w, w', id, s, token);
      forall c | StandsFor(w, param, c) ensures c == id { ResolveIff(cfg, w, param, c); }
    } else {
      forall c ensures !StandsFor(w, param, c) { ResolveIff(cfg, w, param, c); }
      RefusedUpgrade(w, w', id, s, "invalid session");
    }
  }

  // --- closing ---

  /** A leave message closes the socket it came on, if that is a client's current
      one; nobody is evicted before the close event. */
  lemma LeaveCloses(cfg: Config, es: seq<Event>, w: World, w': World, s: Sock)
    requires Reaches(cfg, Init, es, w) && Grounded(w) && Possible(w, EvLeave(s)) && w' == Step(cfg, w, EvLeave(s))
    ensures w' == w.(ws := w'.ws) && w'.ws.Keys == w.ws.Keys
    ensures IsCurrent(w, s, w.clients) ==> w'.ws[s] == w.ws[s].(ready := Closing)
    ensures !IsCurrent(w, s, w.clients) ==> w'.ws[s] == w.ws[s]
    ensures forall x :: x in w.ws && x != s ==> w'.ws[x] == w.ws[x]
  {
    ReachableInv(cfg, es, w);
    CurrentIff(cfg, w, s, w.clients);
    if s in w.conns {
      assert GoodClient(cfg, w, w.conns[s]) && GoodSock(w, s);
      if IsCurrent(w, s, w.clients) { assert w.records[w.conns[s]].socket == Some(s); }
    }
  }

  /** The client has left: untracked, told so once, nothing kept for it, its token void. */
  predicate Left(w: World, w': World, c: ClientId) {
    && c !in w'.clients && c in w'.records && c in w.records && !w'.records[c].alive && !w'.records[c].timer
    && w'.records[c].leaves == w.records[c].leaves + 1 && w'.records[c].disconnects == w.records[c].disconnects + 1
    && w'.records[c].buffer == [] && w.records[c].token !in w'.tokens
  }

  /** When the current socket of a client closes, the client leaves for good if the
      close was consented or the room has no onDrop; otherwise it keeps its seat
      without a socket, and its onDrop runs. Other clients' sockets do not count. */
  lemma CloseDropsIff(cfg: Config, es: seq<Event>, w: World, w': World, s: Sock, code: int, c: ClientId)
    requires Reaches(cfg, Init, es, w) && Grounded(w) && Enabled(w, EvClose(s, code))
    requires w' == Step(cfg, w, EvClose(s, code)) && c in w.clients
    ensures s in w'.ws && w'.ws[s] == w.ws[s].(ready := Closed) && s !in w'.subs
    ensures c in w.records
    ensures w.records[c].socket == Some(s) && (code == CONSENTED || !cfg.hasOnDrop) ==> Left(w, w', c)
    ensures w.records[c].socket == Some(s) && code != CONSENTED && cfg.hasOnDrop ==>
      c in w'.clients && c in w'.records && w'.tokens == w.tokens
        && w'.records[c] == w.records[c].(socket := None, pendingDrops := w.records[c].pendingDrops + 1)
    ensures w.ws[s].owner != c ==> Unnoticed(w, w', c)
  {
    ReachableInv(cfg, es, w);
    assert GoodClient(cfg, w, c) && GoodSock(w, s);
    if w.records[c].socket == Some(s) { CurrentCloses(cfg, w, w', s, code, c); }
    else { OtherCloses(cfg, w, w', s, code, c); }
  }

  lemma CurrentCloses(cfg: Config, w: World, w': World, s: Sock, code: int, c: ClientId)
    requires Inv(cfg, w) && Grounded(w) && c in w.clients && c in w.records && w.records[c].socket == Some(s)
    requires w' == WsClose(cfg, w, s, code)
    ensures s in w'.ws && w'.ws[s] == w.ws[s].(ready := Closed) && s !in w'.subs
    ensures code == CONSENTED || !cfg.hasOnDrop ==> Left(w, w', c)
    ensures code != CONSENTED && cfg.hasOnDrop ==> c in w'.clients && c in w'.records && w'.tokens == w.tokens
    ensures code != CONSENTED && cfg.hasOnDrop ==>
      w'.records[c] == w.records[c].(socket := None, pendingDrops := w.records[c].pendingDrops + 1)
    ensures w.ws[s].owner == c
  {
    assert GoodClient(cfg, w, c) && GoodSock(w, s);
  }

  lemma OtherCloses(cfg: Config, w: World, w': World, s: Sock, code: int, c: ClientId)
    requires Inv(cfg, w) && Grounded(w) && c in w.clients && c in w.records && w.records[c].socket != Some(s)
    requires s in w.ws && w' == WsClose(cfg, w, s, code)
    ensures s in w'.ws && w'.ws[s] == w.ws[s].(ready := Closed) && s !in w'.subs
    ensures w.ws[s].owner != c ==> Unnoticed(w, w', c)
  {
    SocketCloses(cfg, w, w', s, code);
    assert GoodClient(cfg, w, c) && GoodSock(w, s);
    if s in w.conns && w.conns[s] in w.clients && w.ws[s].owner != c {
      OthersClose(cfg, w, w', s, code, c, w.conns[s]);
    }
  }

  lemma SocketCloses(cfg: Config, w: World, w': World, s: Sock, code: int)
    requires Inv(cfg, w) && Grounded(w) && s in w.ws && w' == WsClose(cfg, w, s, code)
    ensures s in w'.ws && w'.ws[s] == w.ws[s].(ready := Closed) && s !in w'.subs
    ensures forall x :: x in w.ws && w.ws[x].owner != w.ws[s].owner ==> x in w'.ws && w'.ws[x] == w.ws[x]
  {
    assert GoodSock(w, s);
    if s in w.conns && w.conns[s] in w.clients { assert GoodClient(cfg, w, w.conns[s]); }
  }

  lemma OthersClose(cfg: Config, w: World, w': World, s: Sock, code: int, c: ClientId, d: ClientId)
    requires Inv(cfg, w) && Grounded(w) && c in w.clients && c in w.records && d in w.clients && c != d
    requires s in w.ws && s in w.conns && w.conns[s] == d && w' == WsClose(cfg, w, s, code) && w.ws[s].owner == d
    requires forall x :: x in w.ws && w.ws[x].owner != d ==> x in w'.ws && w'.ws[x] == w.ws[x]
    ensures Unnoticed(w, w', c)
  {
    assert GoodClient(cfg, w, c) && GoodClient(cfg, w, d);
  }

  /** The client leaves, its socket is closed, and every other client stays as it was. */
  ghost predicate SeatEnds(w: World, w': World, id: ClientId)
    requires HasSocket(w, id)
  {
    && Left(w, w', id) && w'.clients == w.clients - {id}
    && (forall c :: c in w.records && c != id ==> c in w'.records && w'.records[c] == w.records[c])
    && w'.ws ==
      if w.records[id].socket.None? then w.ws
      else w.ws[w.records[id].socket.value := Shut(w.ws[w.records[id].socket.value])]
  }

  function Shut(x: Ws): Ws { if x.ready == Open then x.(ready := Closing) else x }

  /** The window's timer ends the seat of a client that is still away. */
  lemma TimerEndsSeat(cfg: Config, es: seq<Event>, w: World, w': World, id: ClientId)
    requires Reaches(cfg, Init, es, w) && Grounded(w) && Enabled(w, EvTimer(id)) && w' == Step(cfg, w, EvTimer(id))
    ensures HasSocket(w, id) && Waiting(w, id) && SeatEnds(w, w', id)
  {
    ReachableInv(cfg, es, w);
    assert GoodClient(cfg, w, id);
    EvictEnds(cfg, w, w.(records := w.records[id := w.records[id].(timer := false)]), w', id);
  }

  /** So does a disconnect through the handle, once. */
  lemma DisconnectEndsSeat(cfg: Config, es: seq<Event>, w: World, w': World, id: ClientId)
    requires Reaches(cfg, Init, es, w) && Grounded(w) && Enabled(w, EvDisconnect(id))
    requires w' == Step(cfg, w, EvDisconnect(id))
    ensures HasSocket(w, id) && if id in w.clients then SeatEnds(w, w', id) else w' == w
  {
    ReachableInv(cfg, es, w);
    assert GoodClient(cfg, w, id);
    if id in w.clients { EvictEnds(cfg, w, w, w', id); }
  }

  lemma EvictEnds(cfg: Config, w: World, w1: World, w': World, id: ClientId)
    requires id in w.clients && HasSocket(w, id) && HasSocket(w1, id) && w.records[id].alive && w' == Evict(w1, id)
    requires w1 == w || w1 == w.(records := w.records[id := w.records[id].(timer := false)])
    ensures SeatEnds(w, w', id)
  {
    EvictSeat(w1, w', id);
    EvictSocket(w1, w', id);
  }

  lemma EvictSeat(w: World, w': World, id: ClientId)
    requires id in w.clients && HasSocket(w, id) && w.records[id].alive && w' == Evict(w, id)
    ensures Left(w, w', id) && w'.clients == w.clients - {id}
    ensures w'.records == w.records[id := w'.records[id]]
  {
  }

  lemma EvictSocket(w: World, w': World, id: ClientId)
    requires HasSocket(w, id) && w.records[id].alive && w' == Evict(w, id)
    ensures w'.ws ==
      if w.records[id].socket.None? then w.ws
      else w.ws[w.records[id].socket.value := Shut(w.ws[w.records[id].socket.value])]
  {
  }

  /** allowReconnection opens a window for a tracked client without a socket, and
      does nothing for any other. */
  lemma WindowOpensIff(cfg: Config, es: seq<Event>, w: World, w': World, id: ClientId)
    requires Reaches(cfg, Init, es, w) && Grounded(w) && Enabled(w, EvAllow(id)) && w' == Step(cfg, w, EvAllow(id))
    ensures Waiting(w, id) ==> w' == w.(records := w.records[id := w.records[id].(timer := true)])
    ensures !Waiting(w, id) ==> w' == w
  {
    ReachableInv(cfg, es, w);
    assert GoodClient(cfg, w, id);
  }

  /** When an onDrop comes back, the seat of a client that is away without a window
      ends; any other keeps it. One that throws ends no seat. */
  lemma DropEndsSeatIff(cfg: Config, es: seq<Event>, w: World, w': World, e: Event)
    requires Reaches(cfg, Init, es, w) && Grounded(w) && Enabled(w, e) && (e.EvDropDone? || e.EvDropThrew?)
    requires w' == Step(cfg, w, e)
    ensures e.id in w.records && e.id in w'.records
    ensures e.EvDropDone? && Waiting(w, e.id) && !w.records[e.id].timer ==>
      Left(w, w', e.id) && w'.clients == w.clients - {e.id} && w'.ws == w.ws
    ensures e.EvDropThrew? || !Waiting(w, e.id) || w.records[e.id].timer ==>
      w' == w.(records := w.records[e.id := w'.records[e.id]])
    ensures e.EvDropThrew? || !Waiting(w, e.id) || w.records[e.id].timer ==>
      w'.records[e.id] == w.records[e.id].(pendingDrops := w.records[e.id].pendingDrops - 1,
                                           dropThrew := e.EvDropThrew? || w.records[e.id].dropThrew)
  {
    ReachableInv(cfg, es, w);
    assert GoodClient(cfg, w, e.id) && HasSocket(w, e.id);
    if e.EvDropDone? { DropDoneEnds(w, e.id, w'); } else { assert w' == DropThrew(w, e.id); }
  }

  lemma DropDoneEnds(w: World, id: ClientId, w': World)
    requires HasSocket(w, id) && w.records[id].pendingDrops > 0 && w' == DropDone(w, id)
    requires w.records[id].alive <==> id in w.clients
    ensures id in w'.records
    ensures if Waiting(w, id) && !w.records[id].timer
      then Left(w, w', id) && w'.clients == w.clients - {id} && w'.ws == w.ws
      else w' == w.(records := w.records[id := w.records[id].(pendingDrops := w.records[id].pendingDrops - 1)])
  {
    var w1 := w.(records := w.records[id := w.records[id].(pendingDrops := w.records[id].pendingDrops - 1)]);
    if Waiting(w, id) && !w.records[id].timer { EvictSeat(w1, w', id); }
  }

  /** Once a stop has begun the room says nothing more, and never begins again. */
  lemma StoppingIsSilent(cfg: Config, w: World, w1: World, e: Event)
    requires Grounded(w) && Possible(w, EvStopBegin) && w1 == Step(cfg, w, EvStopBegin)
    requires Grounded(w1) && Possible(w1, e) && (e.EvBroadcast? || e.EvSend?)
    ensures Step(cfg, w1, e) == w1 && !Possible(w1, EvStopBegin) && (!w.stopped ==> Possible(w1, EvStopFinish))
    ensures w1.clients == w.clients && w1.records == w.records && w1.ws == w.ws
  {
  }

  /** After a stop nobody is tracked and no token stands; everybody who was tracked
      has left once more than before, and no connection is open. */
  lemma StopLetsAllGo(cfg: Config, es: seq<Event>, w: World, w': World)
    requires Reaches(cfg, Init, es, w) && Grounded(w) && Enabled(w, EvStopFinish) && w' == Step(cfg, w, EvStopFinish)
    ensures w'.clients == {} && w'.tokens == map[] && w'.stopped
    ensures forall c :: c in w.clients ==> Left(w, w', c)
    ensures forall c :: c in w.records && c !in w.clients ==> c in w'.records && w'.records[c] == w.records[c]
    ensures forall s :: s in w.conns ==> s in w'.ws && w'.ws[s].ready != Open
  {
    ReachableInv(cfg, es, w);
    forall c | c in w.clients ensures c in w.records { assert GoodClient(cfg, w, c); }
    forall s | s in w.conns ensures s in w.ws { assert GoodSock(w, s); }
  }
}
