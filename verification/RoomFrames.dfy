/** What a step of the room leaves alone: frames already on a wire, the sockets
    and token of a client, who holds a token (src/room/start.ts,
    src/room/transport/ws.ts). */
module RoomFrames {
  import opened Prelude
  import opened RoomSpec
  import opened RoomInvariant
  import opened RoomSteps
  import opened RoomBroadcast
  import opened RoomRuns

  /** More frames may follow, but no session frame. */
  predicate Tame(x: Ws, x': Ws) {
    && x'.owner == x.owner && x.wire <= x'.wire
    && (forall i :: |x.wire| <= i < |x'.wire| ==> !x'.wire[i].Session?)
  }

  /** Nothing reliable was handed to the socket. */
  ghost predicate Quiet(x: Ws, x': Ws) { Tame(x, x') && Rel(x'.wire) == Rel(x.wire) && x'.lost == x.lost }

  /** The record moves on within one life of the client, between two resumptions. */
  predicate Settled(r: Tracked, r': Tracked) {
    r'.socks == r.socks && r'.token == r.token && r.addressed <= r'.addressed && (r'.alive ==> r.alive)
  }

  ghost predicate SocketFrame(w: World, w': World, x: Sock) {
    x in w.ws ==> x in w'.ws && Tame(w.ws[x], w'.ws[x]) && (IsCurrent(w', x, w'.clients) || Quiet(w.ws[x], w'.ws[x]))
  }

  ghost predicate ClientFrame(w: World, w': World, c: ClientId) {
    (c in w.records <==> c in w'.records) && (c in w.records ==> Settled(w.records[c], w'.records[c]))
  }

  /** No token is issued or changes hands, no onAuth starts. */
  ghost predicate IndexFrame(w: World, w': World) {
    && w'.issued == w.issued && w'.records.Keys == w.records.Keys && w'.ws.Keys == w.ws.Keys
    && (forall t <- w'.tokens :: t in w.tokens && w'.tokens[t] == w.tokens[t])
    && (forall s <- w'.pending :: s in w.pending && w'.pending[s] == w.pending[s])
  }

  ghost predicate Frame(w: World, w': World, x: Sock, c: ClientId) {
    SocketFrame(w, w', x) && ClientFrame(w, w', c) && IndexFrame(w, w')
  }

  lemma SameWire(x: Ws, x': Ws)
    requires x'.owner == x.owner && x'.wire == x.wire && x'.lost == x.lost
    ensures Quiet(x, x')
  {
  }

  lemma CloseFrame(w: World, w': World, s: Sock, x: Sock, c: ClientId)
    requires s in w.ws && w' == CloseSocket(w, s)
    ensures Frame(w, w', x, c)
  {
    if x in w.ws { SameWire(w.ws[x], w'.ws[x]); }
  }

  lemma RecordFrame(w: World, w': World, id: ClientId, r: Tracked, x: Sock, c: ClientId)
    requires id in w.records && w' == w.(records := w.records[id := r]) && Settled(w.records[id], r)
    ensures Frame(w, w', x, c)
  {
    if x in w.ws { SameWire(w.ws[x], w'.ws[x]); }
  }

  lemma ForgetFrame(w: World, w': World, s: Sock, x: Sock, c: ClientId)
    requires s in w.ws && w' == Forget(w, s)
    ensures Frame(w, w', x, c)
  {
    ForgetIs(w, w', s);
    if x in w.ws { SameWire(w.ws[x], w'.ws[x]); }
  }

  /** A change that touches no wire, then a step. */
  lemma ThenFrame(w: World, w1: World, w': World, x: Sock, c: ClientId)
    requires Frame(w, w1, x, c) && Frame(w1, w', x, c)
    requires x in w.ws && x in w1.ws ==> w1.ws[x].wire == w.ws[x].wire && w1.ws[x].lost == w.ws[x].lost
    ensures Frame(w, w', x, c)
  {
    if x in w.ws { assert Tame(w.ws[x], w'.ws[x]); }
  }

  lemma DeadFrame(w: World, w': World, id: ClientId, x: Sock, c: ClientId)
    requires id in w.records && w' == w.(records := w.records[id := Dead(w.records[id])],
      tokens := w.tokens - {w.records[id].token}, clients := w.clients - {id})
    ensures Frame(w, w', x, c)
  {
    if x in w.ws { SameWire(w.ws[x], w'.ws[x]); }
  }

  lemma EvictFrame(w: World, w': World, id: ClientId, x: Sock, c: ClientId)
    requires HasSocket(w, id) && w' == Evict(w, id)
    ensures Frame(w, w', x, c)
  {
    var r := w.records[id];
    if !r.alive {
      RecordFrame(w, w', id, r, x, c);
    } else {
      var w1 := w.(records := w.records[id := Dead(r)], tokens := w.tokens - {r.token}, clients := w.clients - {id});
      DeadFrame(w, w1, id, x, c);
      if r.socket.Some? {
        CloseFrame(w1, w', r.socket.value, x, c);
        ThenFrame(w, w1, w', x, c);
      }
    }
  }

  lemma SendFrame(w: World, w': World, s: Sock, p: Bytes, reliable: bool, x: Sock, c: ClientId)
    requires s in w.ws && w' == SendTo(w, s, User(p, reliable)) && IsCurrent(w, s, w.clients)
    ensures Frame(w, w', x, c)
  {
    if x in w.ws {
      if x == s { assert IsCurrent(w', s, w'.clients); } else { SameWire(w.ws[x], w'.ws[x]); }
    }
  }

  lemma RefusedIsQuiet(x: Ws, error: string)
    ensures Quiet(x, CloseWs(SendWs(x, AuthError(error))))
  {
    RelAppend(x.wire, AuthError(error));
  }

  lemma AuthFailFrame(w: World, w': World, s: Sock, x: Sock, c: ClientId)
    requires s in w.ws && w' == AuthFail(w, s)
    ensures Frame(w, w', x, c)
  {
    assert w'.ws == w.ws[s := CloseWs(SendWs(w.ws[s], AuthError("rejected")))];
    RefusedIsQuiet(w.ws[s], "rejected");
    if x in w.ws && x != s { SameWire(w.ws[x], w'.ws[x]); }
  }

  lemma BufferFrame(cfg: Config, w: World, w': World, id: ClientId, p: Bytes, x: Sock, c: ClientId)
    requires id in w.records && w.records[id].socket.None? && w' == BufferFor(cfg, w, id, p)
    ensures Frame(w, w', x, c)
  {
    var b := Buffer(w.records[id], p);
    var w1 := w.(records := w.records[id := b]);
    RecordFrame(w, w1, id, b, x, c);
    if b.bufferBytes > cfg.maxBufferBytes {
      EvictFrame(w1, w', id, x, c);
      ThenFrame(w, w1, w', x, c);
    }
  }

  lemma HandleSendFrame(cfg: Config, w: World, w': World, id: ClientId, p: Bytes, reliable: bool, x: Sock, c: ClientId)
    requires HasSocket(w, id) && w' == Send(cfg, w, id, p, reliable) && (w.records[id].alive ==> id in w.clients)
    ensures Frame(w, w', x, c)
  {
    var r := w.records[id];
    if !r.alive || !w.alive {
      RecordFrame(w, w', id, r, x, c);
    } else {
      var a := Address(r, p, reliable);
      var w1 := w.(records := w.records[id := a]);
      RecordFrame(w, w1, id, a, x, c);
      if r.socket.Some? {
        assert w1.records[id].socket == Some(r.socket.value);
        SendFrame(w1, w', r.socket.value, p, reliable, x, c);
        ThenFrame(w, w1, w', x, c);
      } else if reliable {
        BufferFrame(cfg, w1, w', id, p, x, c);
        ThenFrame(w, w1, w', x, c);
      }
    }
  }

  lemma DeliveredFrame(cfg: Config, w: World, w': World, ids: set<ClientId>, p: Bytes, reliable: bool, c: ClientId)
    requires w' == Multicast(cfg, w, ids, p, reliable)
    ensures ClientFrame(w, w', c) && IndexFrame(w, w')
  {
  }

  lemma MulticastFrame(cfg: Config, w: World, w': World, ids: set<ClientId>, p: Bytes, reliable: bool, x: Sock)
    requires Inv(cfg, w) && ids <= w.clients && w' == Multicast(cfg, w, ids, p, reliable)
    ensures SocketFrame(w, w', x)
  {
    if x in w.ws {
      if IsCurrent(w, x, ids) {
        var d :| d in ids && d in w.records && w.records[d].socket == Some(x);
        assert GoodClient(cfg, w, d);
        assert d !in Overflowed(cfg, w, ids, p, reliable) && w'.records[d].socket == Some(x);
        assert IsCurrent(w', x, w'.clients);
      } else {
        SameWire(w.ws[x], w'.ws[x]);
      }
    }
  }

  lemma BroadcastFrame(cfg: Config, w: World, w': World, p: Bytes, reliable: bool, except: Option<set<ClientId>>,
                       x: Sock, c: ClientId)
    requires Inv(cfg, w) && w' == Broadcast(cfg, w, p, reliable, except)
    ensures Frame(w, w', x, c)
  {
    FastPathRefinesLoop(cfg, w, p, reliable);
    var ids := w.clients - if except.None? then {} else except.value;
    if w.alive {
      DeliveredFrame(cfg, w, w', ids, p, reliable, c);
      MulticastFrame(cfg, w, w', ids, p, reliable, x);
    } else if x in w.ws {
      SameWire(w.ws[x], w'.ws[x]);
    }
  }

  lemma WsCloseFrame(cfg: Config, w: World, w': World, s: Sock, code: int, x: Sock, c: ClientId)
    requires s in w.ws && Grounded(w) && w' == WsClose(cfg, w, s, code)
    ensures Frame(w, w', x, c)
  {
    var w1 := Forget(w, s);
    ForgetIs(w, w1, s);
    ForgetFrame(w, w1, s, x, c);
    if w' != w1 {
      var id := w.conns[s];
      assert id in w1.clients ==> HasSocket(w1, id) by { assert id in w.clients ==> HasSocket(w, id); }
      HandleCloseFrame(cfg, w1, w', id, code, x, c);
      ThenFrame(w, w1, w', x, c);
    }
  }

  lemma HandleCloseFrame(cfg: Config, w: World, w': World, id: ClientId, code: int, x: Sock, c: ClientId)
    requires (id in w.clients ==> HasSocket(w, id)) && w' == HandleClose(cfg, w, id, code) && w' != w
    ensures Frame(w, w', x, c)
  {
    if code == CONSENTED || !cfg.hasOnDrop { EvictFrame(w, w', id, x, c); }
    else { RecordFrame(w, w', id, w'.records[id], x, c); }
  }

  lemma StopFrame(w: World, w': World, x: Sock, c: ClientId)
    requires w' == StopFinish(w)
    ensures Frame(w, w', x, c)
  {
    if x in w.ws { SameWire(w.ws[x], w'.ws[x]); }
  }

  lemma ContinuationFrame(w: World, w': World, e: Event, x: Sock, c: ClientId)
    requires (e.EvDropDone? || e.EvTimer?) && HasSocket(w, e.id)
    requires
      if e.EvDropDone? then w.records[e.id].pendingDrops > 0 && w' == DropDone(w, e.id)
      else w' == TimerFires(w, e.id)
    ensures Frame(w, w', x, c)
  {
    var r := w.records[e.id];
    var r1 := if e.EvDropDone? then r.(pendingDrops := r.pendingDrops - 1) else r.(timer := false);
    var w1 := w.(records := w.records[e.id := r1]);
    RecordFrame(w, w1, e.id, r1, x, c);
    if w' != w1 {
      EvictFrame(w1, w', e.id, x, c);
      ThenFrame(w, w1, w', x, c);
    }
  }

  lemma AllowFrame(w: World, w': World, id: ClientId, x: Sock, c: ClientId)
    requires id in w.records && w' == AllowReconnection(w, id)
    ensures Frame(w, w', x, c)
  {
    var r := w.records[id];
    if !r.alive || r.socket.Some? { NoFrame(w, x, c); } else { RecordFrame(w, w', id, w'.records[id], x, c); }
  }

  lemma ThrewFrame(w: World, w': World, id: ClientId, x: Sock, c: ClientId)
    requires id in w.records && w.records[id].pendingDrops > 0 && w' == DropThrew(w, id)
    ensures Frame(w, w', x, c)
  {
    var r := w.records[id];
    RecordFrame(w, w', id, r.(pendingDrops := r.pendingDrops - 1, dropThrew := true), x, c);
  }

  lemma LeaveFrame(w: World, w': World, s: Sock, x: Sock, c: ClientId)
    requires w' == Leave(w, s)
    ensures Frame(w, w', x, c)
  {
    if w' != w { CloseFrame(w, w', w.records[w.conns[s]].socket.value, x, c); } else { NoFrame(w, x, c); }
  }

  lemma ClosingFrame(cfg: Config, w: World, w': World, e: Event, x: Sock, c: ClientId)
    requires Grounded(w) && Enabled(w, e) && w' == Step(cfg, w, e)
    requires e.EvAuthFail? || e.EvLeave? || e.EvPeerClosing? || e.EvClose? || e.EvStopBegin? || e.EvStopFinish?
    ensures Frame(w, w', x, c)
  {
    match e
    case EvAuthFail(s) => AuthFailFrame(w, w', s, x, c);
    case EvLeave(s) => LeaveFrame(w, w', s, x, c);
    case EvPeerClosing(s) => CloseFrame(w, w', s, x, c);
    case EvClose(s, code) => WsCloseFrame(cfg, w, w', s, code, x, c);
    case EvStopBegin => NoFrame(w, x, c);
    case EvStopFinish => StopFrame(w, w', x, c);
  }

  lemma VerbFrame(cfg: Config, w: World, w': World, e: Event, x: Sock, c: ClientId)
    requires Inv(cfg, w) && Grounded(w) && Enabled(w, e) && w' == Step(cfg, w, e)
    requires
      e.EvDropDone? || e.EvDropThrew? || e.EvAllow? || e.EvTimer? || e.EvDisconnect? || e.EvSend? || e.EvBroadcast?
    ensures Frame(w, w', x, c)
  {
    match e
    case EvDropDone(id) => assert HasSocket(w, id); ContinuationFrame(w, w', e, x, c);
    case EvDropThrew(id) => ThrewFrame(w, w', id, x, c);
    case EvAllow(id) => AllowFrame(w, w', id, x, c);
    case EvTimer(id) => assert HasSocket(w, id); ContinuationFrame(w, w', e, x, c);
    case EvDisconnect(id) => assert HasSocket(w, id); EvictFrame(w, w', id, x, c);
    case EvSend(id, p, reliable) =>
      assert HasSocket(w, id) && GoodClient(cfg, w, id);
      HandleSendFrame(cfg, w, w', id, p, reliable, x, c);
    case EvBroadcast(p, reliable, except) => BroadcastFrame(cfg, w, w', p, reliable, except, x, c);
  }

  lemma EarlierFrame(w: World, w': World, x: Sock, c: ClientId)
    requires w' == w.(earlier := w'.earlier)
    ensures Frame(w, w', x, c)
  {
    if x in w.ws { SameWire(w.ws[x], w'.ws[x]); }
  }

  /** A step that opens no socket and admits nobody. */
  lemma LocalFrame(cfg: Config, w: World, w': World, e: Event, x: Sock, c: ClientId)
    requires Inv(cfg, w) && Grounded(w) && Enabled(w, e) && w' == Step(cfg, w, e)
    requires !e.EvOpen? && !e.EvReconnect? && !e.EvAuthOk?
    ensures Frame(w, w', x, c)
  {
    if e.EvAuthFail? || e.EvLeave? || e.EvPeerClosing? || e.EvClose? || e.EvStopBegin? || e.EvStopFinish? {
      ClosingFrame(cfg, w, w', e, x, c);
    } else if e.EvEarlier? {
      assert GoodEarlier(w, w.earlier[e.k]);
      OverIsInert(cfg, w, w', e.k, e.e);
      EarlierFrame(w, w', x, c);
    } else {
      VerbFrame(cfg, w, w', e, x, c);
    }
  }

  lemma NoFrame(w: World, x: Sock, c: ClientId)
    ensures Frame(w, w, x, c) && Frame(w, w.(alive := false), x, c)
  {
    if x in w.ws { SameWire(w.ws[x], w.ws[x]); }
  }
}
