/** What one admission can do to the room: through its handle's verbs, its timers
    and the continuation of its onDrop (src/room/start.ts). */
module RoomVerbs {
  import opened Prelude
  import opened RoomSpec

  /** onLeave and client-disconnected have fired once iff the record is dead. */
  predicate Counted(r: Tracked) { r.leaves == r.disconnects == if r.alive then 0 else 1 }

  predicate Windowed(r: Tracked) { r.timer ==> r.alive && r.socket.None? }

  predicate RecordMoves(r: Tracked, r': Tracked) {
    && (r'.socket == r.socket || r'.socket.None?) && r'.socks == r.socks && r'.token == r.token
    && (r'.alive ==> r.alive)
    && (Counted(r) ==> Counted(r')) && (Windowed(r) ==> Windowed(r'))
  }

  predicate SocketMoves(x: Ws, x': Ws) {
    x'.owner == x.owner && (x.ready == Closed ==> x'.ready == Closed && x'.wire == x.wire)
  }

  /** One record moves on; when it dies its client id leaves the map; sockets are
      at most written to and closed. */
  ghost predicate VerbMoves(w: World, w': World, id: ClientId) {
    && id in w.records && id in w'.records
    && w' == w.(records := w.records[id := w'.records[id]], clients := w'.clients, tokens := w'.tokens, ws := w'.ws)
    && RecordMoves(w.records[id], w'.records[id])
    && w'.clients == (if w.records[id].alive && !w'.records[id].alive then w.clients - {id} else w.clients)
    && w'.ws.Keys == w.ws.Keys && (forall s <- w.ws :: SocketMoves(w.ws[s], w'.ws[s]))
  }

  lemma ThenVerb(w: World, w1: World, w': World, id: ClientId)
    requires VerbMoves(w, w1, id) && VerbMoves(w1, w', id)
    ensures VerbMoves(w, w', id)
  {
    assert w1.records[id := w'.records[id]] == w.records[id := w'.records[id]];
    forall s <- w.ws ensures SocketMoves(w.ws[s], w'.ws[s]) {
      assert SocketMoves(w.ws[s], w1.ws[s]) && SocketMoves(w1.ws[s], w'.ws[s]);
    }
  }

  lemma RecordVerb(w: World, w': World, id: ClientId, r: Tracked)
    requires id in w.records && w' == w.(records := w.records[id := r])
    requires RecordMoves(w.records[id], r) && r.alive == w.records[id].alive
    ensures VerbMoves(w, w', id)
  {
  }

  lemma SocketVerb(w: World, w': World, id: ClientId, s: Sock, x: Ws)
    requires id in w.records && s in w.ws && w' == w.(ws := w.ws[s := x]) && SocketMoves(w.ws[s], x)
    ensures VerbMoves(w, w', id)
  {
    assert w.records[id := w.records[id]] == w.records;
  }

  lemma EvictVerb(w: World, w': World, id: ClientId)
    requires HasSocket(w, id) && w' == Evict(w, id)
    ensures VerbMoves(w, w', id)
  {
    var r := w.records[id];
    if !r.alive {
      RecordVerb(w, w', id, r);
    } else {
      var w1 := w.(records := w.records[id := Dead(r)], tokens := w.tokens - {r.token}, clients := w.clients - {id});
      assert VerbMoves(w, w1, id);
      if r.socket.Some? {
        SocketVerb(w1, w', id, r.socket.value, CloseWs(w1.ws[r.socket.value]));
        ThenVerb(w, w1, w', id);
      }
    }
  }

  /** The record changes, then the client may be evicted. */
  lemma RecordThenEvict(w: World, w1: World, w': World, id: ClientId, r: Tracked)
    requires HasSocket(w, id) && w1 == w.(records := w.records[id := r])
    requires RecordMoves(w.records[id], r) && r.alive == w.records[id].alive && r.socket == w.records[id].socket
    requires w' == w1 || w' == Evict(w1, id)
    ensures VerbMoves(w, w', id)
  {
    RecordVerb(w, w1, id, r);
    if w' != w1 {
      EvictVerb(w1, w', id);
      ThenVerb(w, w1, w', id);
    }
  }

  lemma LiveSendVerb(w: World, w': World, id: ClientId, s: Sock, p: Bytes, reliable: bool)
    requires id in w.records && s in w.ws
    requires w' == SendTo(w.(records := w.records[id := Address(w.records[id], p, reliable)]), s, User(p, reliable))
    ensures VerbMoves(w, w', id)
  {
    var a := Address(w.records[id], p, reliable);
    var w1 := w.(records := w.records[id := a]);
    RecordVerb(w, w1, id, a);
    SocketVerb(w1, w', id, s, SendWs(w1.ws[s], User(p, reliable)));
    ThenVerb(w, w1, w', id);
  }

  lemma SendVerb(cfg: Config, w: World, w': World, id: ClientId, p: Bytes, reliable: bool)
    requires HasSocket(w, id) && w' == Send(cfg, w, id, p, reliable)
    ensures VerbMoves(w, w', id)
  {
    var r := w.records[id];
    if !r.alive || !w.alive {
      RecordVerb(w, w', id, r);
    } else if r.socket.Some? {
      LiveSendVerb(w, w', id, r.socket.value, p, reliable);
    } else if reliable {
      BufferVerb(cfg, w, w', id, p);
    } else {
      RecordVerb(w, w', id, r);
    }
  }

  lemma BufferVerb(cfg: Config, w: World, w': World, id: ClientId, p: Bytes)
    requires HasSocket(w, id) && w.records[id].socket.None?
    requires w' == BufferFor(cfg, w.(records := w.records[id := Address(w.records[id], p, true)]), id, p)
    ensures VerbMoves(w, w', id)
  {
    var b := Buffer(Address(w.records[id], p, true), p);
    assert w.records[id := Address(w.records[id], p, true)][id := b] == w.records[id := b];
    RecordThenEvict(w, w.(records := w.records[id := b]), w', id, b);
  }

  lemma DropVerb(w: World, w': World, id: ClientId)
    requires HasSocket(w, id) && w.records[id].pendingDrops > 0
    requires w' == DropDone(w, id) || w' == DropThrew(w, id)
    ensures VerbMoves(w, w', id)
  {
    var r := w.records[id];
    if w' == DropThrew(w, id) {
      RecordVerb(w, w', id, r.(pendingDrops := r.pendingDrops - 1, dropThrew := true));
    } else {
      var r1 := r.(pendingDrops := r.pendingDrops - 1);
      RecordThenEvict(w, w.(records := w.records[id := r1]), w', id, r1);
    }
  }

  lemma AllowVerb(w: World, w': World, id: ClientId)
    requires id in w.records && w' == AllowReconnection(w, id)
    ensures VerbMoves(w, w', id)
  {
    var r := w.records[id];
    if !r.alive || r.socket.Some? {
      RecordVerb(w, w', id, r);
    } else {
      RecordVerb(w, w', id, r.(timer := true, strays := r.strays + if r.timer then 1 else 0));
    }
  }

  lemma TimerVerb(w: World, w': World, id: ClientId)
    requires HasSocket(w, id) && w' == TimerFires(w, id)
    ensures VerbMoves(w, w', id)
  {
    var r := w.records[id].(timer := false);
    RecordThenEvict(w, w.(records := w.records[id := r]), w', id, r);
  }

  lemma StrayVerb(w: World, w': World, id: ClientId)
    requires HasSocket(w, id) && w.records[id].strays > 0 && w' == StrayFires(w, id)
    ensures VerbMoves(w, w', id)
  {
    var r := w.records[id];
    var r1 := r.(timer := false, strays := if r.timer then r.strays else r.strays - 1);
    RecordThenEvict(w, w.(records := w.records[id := r1]), w', id, r1);
  }

  lemma HandleVerb(cfg: Config, w: World, w': World, e: Event)
    requires OfHandle(e) && HandlePossible(w, e) && HasSocket(w, e.id) && w' == HandleStep(cfg, w, e)
    ensures VerbMoves(w, w', e.id)
  {
    match e
    case EvDropDone(id) => DropVerb(w, w', id);
    case EvDropThrew(id) => DropVerb(w, w', id);
    case EvAllow(id) => AllowVerb(w, w', id);
    case EvTimer(id) => TimerVerb(w, w', id);
    case EvStray(id) => StrayVerb(w, w', id);
    case EvDisconnect(id) => EvictVerb(w, w', id);
    case EvSend(id, p, reliable) => SendVerb(cfg, w, w', id, p, reliable);
  }

  /** The room's close handler is a verb of the tracked client. */
  lemma CloseVerb(cfg: Config, w: World, w': World, id: ClientId, code: int)
    requires id in w.clients && HasSocket(w, id) && w' == HandleClose(cfg, w, id, code)
    ensures VerbMoves(w, w', id)
  {
    var r := w.records[id];
    if code == CONSENTED || !cfg.hasOnDrop {
      EvictVerb(w, w', id);
    } else {
      RecordVerb(w, w', id, r.(socket := None, pendingDrops := r.pendingDrops + 1));
    }
  }

  /** What an earlier admission does leaves the latest records alone; when it dies,
      its client id leaves the map even so. */
  ghost predicate EarlierMoves(w: World, w': World, k: nat) {
    && k < |w.earlier| && |w'.earlier| == |w.earlier|
    && w' == w.(earlier := w.earlier[k := w'.earlier[k]], clients := w'.clients, tokens := w'.tokens, ws := w'.ws)
    && w'.earlier[k].id == w.earlier[k].id && RecordMoves(w.earlier[k].r, w'.earlier[k].r)
    && w'.clients ==
      (if w.earlier[k].r.alive && !w'.earlier[k].r.alive then w.clients - {w.earlier[k].id} else w.clients)
    && w'.ws.Keys == w.ws.Keys && (forall s <- w.ws :: SocketMoves(w.ws[s], w'.ws[s]))
  }

  lemma EarlierVerb(cfg: Config, w: World, w': World, k: nat, e: Event)
    requires Grounded(w) && Possible(w, EvEarlier(k, e)) && w' == OnEarlier(cfg, w, k, e)
    ensures EarlierMoves(w, w', k)
  {
    var w0 := AsLatest(w, k);
    var w1 := HandleStep(cfg, w0, e);
    HandleVerb(cfg, w0, w1, e);
    assert w'.records == w.records;
  }
}
