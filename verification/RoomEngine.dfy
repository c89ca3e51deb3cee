/** The room engine in the source's own form: state updated in place by the
    transport's handlers, the client handle's verbs and the broadcast loops. Each
    method is tied to the function of RoomSpec it carries out. */
module RoomEngine {
  import opened Prelude
  import opened RoomSpec
  import opened RoomInvariant
  import opened RoomSteps
  import opened RoomBroadcast
  import opened RoomRuns
  import opened RoomVerbs
  import opened RoomWires

  // --- broadcasting one client at a time ---

  lemma OverflowedOneMore(cfg: Config, w: World, done: set<ClientId>, c: ClientId, p: Bytes, reliable: bool)
    requires c in w.records
    ensures Overflowed(cfg, w, done + {c}, p, reliable) ==
      if Deliver(cfg, w.records[c], p, reliable).alive then Overflowed(cfg, w, done, p, reliable)
      else Overflowed(cfg, w, done, p, reliable) + {c}
  {
  }

  lemma TokensOneMore(w: World, ids: set<ClientId>, c: ClientId)
    requires c in w.records
    ensures TokensOf(w, ids + {c}) == TokensOf(w, ids) + {w.records[c].token}
  {
    forall t | t in TokensOf(w, ids) + {w.records[c].token} ensures t in TokensOf(w, ids + {c}) {
      if t != w.records[c].token {
        var d :| d in ids && d in w.records && w.records[d].token == t;
        assert d in ids + {c};
      } else {
        assert c in ids + {c};
      }
    }
  }

  lemma DeliveredOneMore(cfg: Config, w: World, done: set<ClientId>, c: ClientId, p: Bytes, reliable: bool)
    requires c in w.records && c in w.clients && c !in done
    ensures var r := Deliver(cfg, w.records[c], p, reliable);
      var d := Delivered(cfg, w, done, p, reliable);
      var d' := Delivered(cfg, w, done + {c}, p, reliable);
      && d.records[c] == w.records[c]
      && d'.records == d.records[c := r]
      && d'.clients == (if r.alive then d.clients else d.clients - {c})
      && d'.tokens == (if r.alive then d.tokens else d.tokens - {w.records[c].token})
  {
    OverflowedOneMore(cfg, w, done, c, p, reliable);
    TokensOneMore(w, Overflowed(cfg, w, done, p, reliable), c);
  }

  /** No two clients of `ids` share a current socket. */
  ghost predicate OwnSockets(w: World, ids: set<ClientId>) {
    forall c, d :: c in ids && d in ids && c in w.records && d in w.records && c != d && w.records[c].socket.Some?
      ==> w.records[c].socket != w.records[d].socket
  }

  lemma CurrentOneMore(w: World, done: set<ClientId>, c: ClientId)
    requires c in w.clients && c !in done && done <= w.clients && w.clients <= w.records.Keys
    requires OwnSockets(w, w.clients)
    ensures forall s: Sock {:trigger IsCurrent(w, s, done + {c})} ::
      IsCurrent(w, s, done + {c}) <==> IsCurrent(w, s, done) || w.records[c].socket == Some(s)
    ensures w.records[c].socket.Some? ==> !IsCurrent(w, w.records[c].socket.value, done)
  {
    forall s: Sock ensures IsCurrent(w, s, done + {c}) <==> IsCurrent(w, s, done) || w.records[c].socket == Some(s) {
      assert c in done + {c};
      if IsCurrent(w, s, done) {
        var x :| x in done && x in w.records && w.records[x].socket == Some(s);
        assert x in done + {c};
      }
    }
  }

  lemma MulticastOneMore(cfg: Config, w: World, done: set<ClientId>, c: ClientId, p: Bytes, reliable: bool)
    requires c in w.clients && c !in done && done <= w.clients && w.clients <= w.records.Keys
    requires HasSocket(w, c) && OwnSockets(w, w.clients)
    ensures var d := Multicast(cfg, w, done, p, reliable);
      var d' := Multicast(cfg, w, done + {c}, p, reliable);
      HasSocket(d, c) && d.records[c] == w.records[c]
      && d'.ws == if w.records[c].socket.None? then d.ws
                  else d.ws[w.records[c].socket.value := SendWs(d.ws[w.records[c].socket.value], User(p, reliable))]
  {
    var d := Multicast(cfg, w, done, p, reliable);
    var d' := Multicast(cfg, w, done + {c}, p, reliable);
    CurrentOneMore(w, done, c);
  }

  lemma FlushOneMore(x: Ws, buffer: seq<Bytes>, i: nat)
    requires i < |buffer|
    ensures SendWs(Flush(x, buffer[..i]), User(buffer[i], true)) == Flush(x, buffer[..i + 1])
  {
    assert buffer[..i + 1] == buffer[..i] + [buffer[i]];
    assert Frames(buffer[..i + 1]) == Frames(buffer[..i]) + [User(buffer[i], true)];
    assert x.wire + (Frames(buffer[..i]) + [User(buffer[i], true)]) ==
      x.wire + Frames(buffer[..i]) + [User(buffer[i], true)];
    assert x.lost + (buffer[..i] + [buffer[i]]) == x.lost + buffer[..i] + [buffer[i]];
  }

  /** Tracked clients have live records of their own sockets, all of which exist. */
  ghost predicate Sound(w: World) {
    && Grounded(w)
    && w.subs <= w.ws.Keys
    && (forall c :: c in w.clients ==> w.records[c].alive)
    && OwnSockets(w, w.clients)
  }

  lemma WiredIsSound(w: World)
    requires Wired(w)
    ensures Sound(w) && w.conns.Keys <= w.ws.Keys
  {
    WiredIsGrounded(w);
    SubsExist(w);
    forall s | s in w.conns ensures s in w.ws { assert GoodConn(w, s); }
    forall c | c in w.clients ensures w.records[c].alive { assert GoodSeat(w, c); }
    forall c, d | c in w.clients && d in w.clients && c != d && w.records[c].socket.Some?
      ensures w.records[c].socket != w.records[d].socket
    {
      assert GoodSeat(w, c) && GoodSeat(w, d);
    }
  }

  lemma AnyStep(cfg: Config, w: World, w': World, e: Event)
    requires Wired(w) && Grounded(w) && Possible(w, e) && w' == Step(cfg, w, e)
    ensures Wired(w') && (Inv(cfg, w) && Enabled(w, e) ==> Inv(cfg, w'))
  {
    StepWires(cfg, w, w', e);
    if Inv(cfg, w) && Enabled(w, e) { StepKeeps(cfg, w, e); }
  }

  class Engine {
    const cfg: Config
    var alive: bool
    var stopped: bool
    var records: map<ClientId, Tracked>
    var clients: set<ClientId>
    var tokens: map<Token, ClientId>
    var conns: map<Sock, ClientId>
    var clientSockets: map<ClientId, Sock>
    var subs: set<Sock>
    var ws: map<Sock, Ws>
    var pending: map<Sock, ClientId>
    var issued: set<Token>
    var earlier: seq<Admission>

    ghost function View(): World
      reads this
    {
      World(alive, stopped, records, clients, tokens, conns, clientSockets, subs, ws, pending, issued, earlier)
    }

    ghost predicate Valid()
      reads this
    {
      Sound(View())
    }

    constructor (cfg: Config)
      ensures this.cfg == cfg && View() == Init && Valid()
    {
      this.cfg := cfg;
      alive, stopped := true, false;
      records, clients, tokens := map[], {}, map[];
      conns, clientSockets, subs := map[], map[], {};
      ws, pending, issued, earlier := map[], map[], {}, [];
    }

    // --- ClientSocket ---

    method SocketSend(s: Sock, f: Frame)
      requires s in ws
      modifies this`ws
      ensures View() == SendTo(old(View()), s, f)
    {
      var x := ws[s];
      if x.ready == Open {
        ws := ws[s := x.(wire := x.wire + [f])];
      } else if f.User? && f.reliable {
        ws := ws[s := x.(lost := x.lost + [f.payload])];
      }
      assert ws == old(ws)[s := SendWs(x, f)];
    }

    method SocketClose(s: Sock)
      requires s in ws
      modifies this`ws
      ensures View() == CloseSocket(old(View()), s)
    {
      if ws[s].ready == Open {
        ws := ws[s := ws[s].(ready := Closing)];
      }
      assert ws == old(ws)[s := CloseWs(old(ws)[s])];
    }

    // --- transport ---

    method UpgradeSocket(id: ClientId, s: Sock)
      modifies this
      ensures View() == CompleteUpgrade(old(View()), id, s)
    {
      if id in clientSockets {
        var previous := clientSockets[id];
        if previous in conns {
          subs := subs - {previous};
        }
        conns := conns - {previous};
      }
      conns := conns[s := id];
      clientSockets := clientSockets[id := s];
      ws := ws[s := Ws(id, Open, [], [])];
    }

    /** Fan out over the topic's subscribers, skipping sockets that are not open. */
    method Publish(f: Frame)
      requires subs <= ws.Keys
      modifies this`ws
      ensures ws == map s | s in old(ws) ::
        if s in subs && old(ws)[s].ready == Open then old(ws)[s].(wire := old(ws)[s].wire + [f]) else old(ws)[s]
    {
      var todo := subs;
      while todo != {}
        invariant todo <= subs
        invariant ws == map s | s in old(ws) ::
          if s in subs - todo && old(ws)[s].ready == Open then old(ws)[s].(wire := old(ws)[s].wire + [f])
          else old(ws)[s]
        decreases todo
      {
        var s :| s in todo;
        if ws[s].ready == Open {
          ws := ws[s := ws[s].(wire := ws[s].wire + [f])];
        }
        todo := todo - {s};
      }
    }

    // --- clients ---

    method EvictClient(id: ClientId)
      requires HasSocket(View(), id)
      modifies this
      ensures View() == Evict(old(View()), id)
    {
      var r := records[id];
      if !r.alive { return; }
      r := r.(alive := false);
      if r.timer {
        r := r.(timer := false);
      }
      tokens := tokens - {r.token};
      r := r.(buffer := [], bufferBytes := 0);
      if r.socket.Some? {
        SocketClose(r.socket.value);
      }
      clients := clients - {id};
      // onLeave, then client-disconnected
      r := r.(leaves := r.leaves + 1);
      r := r.(disconnects := r.disconnects + 1);
      records := records[id := r];
    }

    method BufferForClient(id: ClientId, p: Bytes)
      requires id in records && records[id].socket.None?
      modifies this
      ensures View() == BufferFor(cfg, old(View()), id, p)
    {
      var r := records[id];
      records := records[id := r.(buffer := r.buffer + [p], bufferBytes := r.bufferBytes + |p|)];
      if records[id].bufferBytes > cfg.maxBufferBytes {
        EvictClient(id);
      }
    }

    method HandleSend(id: ClientId, p: Bytes, reliable: bool)
      requires HasSocket(View(), id)
      modifies this
      ensures View() == Send(cfg, old(View()), id, p, reliable)
    {
      var r := records[id];
      if !r.alive || !alive { return; }
      records := records[id := Address(r, p, reliable)];
      if r.socket.Some? {
        SocketSend(r.socket.value, User(p, reliable));
      } else if reliable {
        BufferForClient(id, p);
      }
    }

    method HandleAllowReconnection(id: ClientId)
      requires id in records
      modifies this
      ensures View() == AllowReconnection(old(View()), id)
    {
      if !records[id].alive { return; }
      if records[id].socket.Some? { return; }
      var strays := records[id].strays + if records[id].timer then 1 else 0;
      records := records[id := records[id].(timer := true, strays := strays)];
    }

    method TimerFired(id: ClientId)
      requires HasSocket(View(), id)
      modifies this
      ensures View() == TimerFires(old(View()), id)
    {
      records := records[id := records[id].(timer := false)];
      EvictClient(id);
    }

    method StrayFired(id: ClientId)
      requires HasSocket(View(), id) && records[id].strays > 0
      modifies this
      ensures View() == StrayFires(old(View()), id)
    {
      var r := records[id];
      records := records[id := r.(timer := false, strays := if r.timer then r.strays else r.strays - 1)];
      EvictClient(id);
    }

    // --- broadcast ---

    method BroadcastExcept(p: Bytes, reliable: bool, except: set<ClientId>)
      requires Valid()
      modifies this
      ensures View() == BroadcastLoop(cfg, old(View()), p, reliable, except)
    {
      if !alive { return; }
      ghost var w := View();
      var todo := clients;
      ghost var done: set<ClientId> := {};
      assert View() == Multicast(cfg, w, done, p, reliable) by {
        assert Overflowed(cfg, w, {}, p, reliable) == {};
        assert TokensOf(w, {}) == {};
        assert w.tokens - {} == w.tokens;
      }
      while todo != {}
        invariant todo <= w.clients && done == w.clients - todo - except
        invariant View() == Multicast(cfg, w, done, p, reliable)
        decreases todo
      {
        var c :| c in todo;
        if c !in except {
          assert HasSocket(w, c);
          MulticastOneMore(cfg, w, done, c, p, reliable);
          DeliveredOneMore(cfg, w, done, c, p, reliable);
          SendToOne(cfg, View(), c, p, reliable);
          HandleSend(c, p, reliable);
          done := done + {c};
        }
        todo := todo - {c};
      }
      assert done == w.clients - except;
    }

    /** The body of the fast path's loop. A client with a socket was reached by
        the publish; only the history fields note the message for it. */
    method BufferIfDisconnected(c: ClientId, p: Bytes)
      requires HasSocket(View(), c) && records[c].alive
      modifies this
      ensures var r := Deliver(cfg, old(records)[c], p, true);
        && records == old(records)[c := r]
        && clients == (if r.alive then old(clients) else old(clients) - {c})
        && tokens == (if r.alive then old(tokens) else old(tokens) - {r.token})
      ensures ws == if records[c].socket.None? || old(ws)[records[c].socket.value].ready == Open then old(ws)
        else old(ws)[records[c].socket.value := SendWs(old(ws)[records[c].socket.value], User(p, true))]
      ensures View() == old(View()).(records := records, clients := clients, tokens := tokens, ws := ws)
    {
      records := records[c := Address(records[c], p, true)];
      if records[c].socket.None? {
        BufferForOne(cfg, View(), c, p);
        BufferForClient(c, p);
      } else if ws[records[c].socket.value].ready != Open {
        SocketSend(records[c].socket.value, User(p, true));
      }
    }

    /** No exclusions: one publish, then one buffered copy per disconnected client. */
    method BroadcastAll(p: Bytes, reliable: bool)
      requires Valid()
      modifies this
      ensures View() == BroadcastFast(cfg, old(View()), p, reliable)
    {
      if !alive { return; }
      ghost var w := View();
      Publish(User(p, reliable));
      ghost var done: set<ClientId> := {};
      Published(cfg, w, ws, p, reliable);
      if reliable {
        var todo := clients;
        while todo != {}
          invariant todo <= w.clients && done == w.clients - todo
          invariant View() == FastPart(cfg, w, done, p, reliable)
          decreases todo
        {
          var c :| c in todo;
          assert HasSocket(w, c);
          DeliveredOneMore(cfg, w, done, c, p, reliable);
          FastPartOneMore(cfg, w, done, c, p, reliable);
          BufferIfDisconnected(c, p);
          done := done + {c};
          todo := todo - {c};
        }
        assert done == w.clients;
        FastPartOfAll(cfg, w, p, reliable);
      } else {
        UnreliableChangesNoRecord(cfg, w, p);
      }
    }

    method BroadcastTo(p: Bytes, reliable: bool, except: Option<set<ClientId>>)
      requires Valid()
      modifies this
      ensures View() == Broadcast(cfg, old(View()), p, reliable, except)
    {
      match except {
        case None => BroadcastAll(p, reliable);
        case Some(ids) => BroadcastExcept(p, reliable, ids);
      }
    }

    // --- transport handlers ---

    method OnOpen(id: ClientId, s: Sock)
      modifies this
      ensures View() == OpenStart(old(View()), id, s)
    {
      UpgradeSocket(id, s);
      if id in clients {
        SocketSend(s, AuthError("seat already in use"));
        SocketClose(s);
        return;
      }
      pending := pending[s := id];
    }

    /** The record, its index entries and its subscription; an earlier record of
        the id is left to whoever still holds it. */
    method Admit(id: ClientId, s: Sock, token: Token)
      modifies this`issued, this`tokens, this`earlier, this`records, this`clients, this`subs
      ensures issued == old(issued) + {token} && tokens == old(tokens)[token := id]
      ensures earlier ==
        if id in old(records) then old(earlier) + [Admission(id, old(records)[id])] else old(earlier)
      ensures records == old(records)[id := NewTracked(token, s)]
      ensures clients == old(clients) + {id} && subs == old(subs) + {s}
    {
      issued := issued + {token};
      tokens := tokens[token := id];
      if id in records { earlier := earlier + [Admission(id, records[id])]; }
      records := records[id := NewTracked(token, s)];
      clients := clients + {id};
      subs := subs + {s};
    }

    method OnAuthorized(s: Sock, token: Token)
      requires s in pending && s in ws
      modifies this
      ensures View() == AuthOk(old(View()), s, token)
    {
      var id := pending[s];
      pending := pending - {s};
      Admit(id, s, token);
      SocketSend(s, Session(token, id));
    }

    method OnRejected(s: Sock)
      requires s in ws
      modifies this
      ensures View() == AuthFail(old(View()), s)
    {
      pending := pending - {s};
      SocketSend(s, AuthError("rejected"));
      SocketClose(s);
    }

    method FlushBuffer(id: ClientId, s: Sock)
      requires id in records && s in ws
      modifies this`ws, this`records
      ensures ws == old(ws)[s := Flush(old(ws)[s], old(records)[id].buffer)]
      ensures records == old(records)[id := old(records)[id].(buffer := [], bufferBytes := 0)]
    {
      var buffer := records[id].buffer;
      var i := 0;
      assert ws[s].wire + Frames([]) == ws[s].wire && ws[s].lost + [] == ws[s].lost;
      assert buffer[..0] == [];
      while i < |buffer|
        invariant 0 <= i <= |buffer|
        invariant ws == old(ws)[s := Flush(old(ws)[s], buffer[..i])]
        invariant records == old(records)
      {
        FlushOneMore(old(ws)[s], buffer, i);
        SocketSend(s, User(buffer[i], true));
        i := i + 1;
      }
      assert buffer[..i] == buffer;
      records := records[id := records[id].(buffer := [], bufferBytes := 0)];
    }

    method AttachSocket(id: ClientId, s: Sock, token: Token)
      requires id in records
      modifies this`tokens, this`issued, this`records, this`subs
      ensures tokens == (old(tokens) - {old(records)[id].token})[token := id]
      ensures issued == old(issued) + {token} && subs == old(subs) + {s}
      ensures var r := old(records)[id];
        records == old(records)[id := r.(timer := false, socket := Some(s), token := token, socks := r.socks + [s])]
    {
      records := records[id := records[id].(timer := false, socket := Some(s), socks := records[id].socks + [s])];
      subs := subs + {s};
      tokens := tokens - {records[id].token};
      records := records[id := records[id].(token := token)];
      tokens := tokens[token := id];
      issued := issued + {token};
    }

    method ResumeClient(id: ClientId, s: Sock, token: Token)
      requires id in records && s in ws
      modifies this
      ensures View() == Resume(old(View()), id, s, token)
    {
      AttachSocket(id, s, token);
      FlushBuffer(id, s);
      SocketSend(s, Session(token, id));
    }

    method OnReconnect(param: Token, s: Sock, token: Token)
      modifies this
      ensures View() == Reconnect(old(View()), param, s, token)
    {
      // upgrade: a valid session names its client, anything else stands for itself
      var id := param;
      if param in tokens && tokens[param] in clients && tokens[param] in records
        && records[tokens[param]].socket.None? {
        id := tokens[param];
      }
      UpgradeSocket(id, s);
      if id !in clients || id !in records || records[id].socket.Some? {
        SocketSend(s, AuthError("invalid session"));
        SocketClose(s);
        return;
      }
      ResumeClient(id, s, token);
    }

    method OnLeaveMessage(s: Sock)
      modifies this
      ensures View() == Leave(old(View()), s)
    {
      if s !in conns { return; }
      var id := conns[s];
      if id !in clientSockets || clientSockets[id] != s { return; }
      if id !in clients || id !in records || records[id].socket.None? { return; }
      if records[id].socket.value in ws {
        SocketClose(records[id].socket.value);
      }
    }

    method ClientClosed(id: ClientId, code: int)
      requires id in clients ==> HasSocket(View(), id)
      modifies this
      ensures View() == HandleClose(cfg, old(View()), id, code)
    {
      if id !in clients { return; }
      if code == CONSENTED || !cfg.hasOnDrop {
        EvictClient(id);
        return;
      }
      var r := records[id];
      records := records[id := r.(socket := None, pendingDrops := r.pendingDrops + 1)];
    }

    method OnClose(s: Sock, code: int)
      requires Valid() && s in ws
      modifies this
      ensures View() == WsClose(cfg, old(View()), s, code)
    {
      ghost var w := View();
      var mapped := s in conns && conns[s] in clientSockets && clientSockets[conns[s]] == s;
      var id := if s in conns then conns[s] else "";
      assert id in w.clients ==> HasSocket(w, id);
      subs := subs - {s};
      conns := conns - {s};
      ws := ws[s := ws[s].(ready := Closed)];
      if !mapped { return; }
      clientSockets := clientSockets - {id};
      ClientClosed(id, code);
    }

    method AfterOnDrop(id: ClientId)
      requires HasSocket(View(), id) && records[id].pendingDrops > 0
      modifies this
      ensures View() == DropDone(old(View()), id)
    {
      var r := records[id];
      records := records[id := r.(pendingDrops := r.pendingDrops - 1)];
      if !r.timer && r.socket.None? && id in clients {
        EvictClient(id);
      }
    }

    // --- stop ---

    /** The maps are cleared first; then each client of the snapshot is let go. */
    method FinishStop()
      requires Valid() && conns.Keys <= ws.Keys
      modifies this
      ensures View() == StopFinish(old(View()))
    {
      ghost var w := View();
      var snapshot := clients;
      clients := {};
      tokens := map[];
      LetGoOf(w, snapshot);
      LetGoKeepsOrCloses(w, snapshot);
      CloseServer(w);
      stopped := true;
      StopInParts(w);
    }

    method LetGoOf(ghost w: World, snapshot: set<ClientId>)
      requires Sound(w) && snapshot == w.clients && records == w.records && ws == w.ws
      modifies this`records, this`ws
      ensures records == LetGoRecords(w, snapshot) && ws == LetGoSockets(w, snapshot)
    {
      var todo := snapshot;
      while todo != {}
        invariant todo <= snapshot
        invariant records == LetGoRecords(w, snapshot - todo) && ws == LetGoSockets(w, snapshot - todo)
        decreases todo
      {
        var c :| c in todo;
        assert HasSocket(w, c);
        LetGoOneMore(w, snapshot - todo, c);
        assert snapshot - (todo - {c}) == snapshot - todo + {c};
        records := records[c := Dead(records[c])];
        if records[c].socket.Some? {
          SocketClose(records[c].socket.value);
        }
        todo := todo - {c};
      }
      assert snapshot - {} == snapshot;
    }

    /** The transport server closes every connection. */
    method CloseServer(ghost w: World)
      requires conns.Keys <= ws.Keys && ws.Keys == w.ws.Keys
      requires forall s :: s in w.ws ==> ws[s] == w.ws[s] || ws[s] == CloseWs(w.ws[s])
      modifies this`ws
      ensures ws == ServerClosed(w, conns.Keys, old(ws))
    {
      var todo := conns.Keys;
      while todo != {}
        invariant todo <= conns.Keys
        invariant ws == ServerClosed(w, conns.Keys - todo, old(ws))
        decreases todo
      {
        var s :| s in todo;
        SocketClose(s);
        todo := todo - {s};
      }
    }

    // --- any event ---

    /** Whatever happens next, orderly or not, the engine takes exactly the
        specified step; an orderly one keeps the invariant. */
    method Handle(e: Event)
      requires Wired(View()) && Possible(View(), e)
      modifies this
      ensures Grounded(old(View())) && View() == Step(cfg, old(View()), e) && Wired(View())
      ensures Inv(cfg, old(View())) && Enabled(old(View()), e) ==> Inv(cfg, View())
    {
      WiredIsSound(View());
      AnyStep(cfg, View(), Step(cfg, View(), e), e);
      assert OfHandle(e) ==> HasSocket(View(), e.id);
      if OfHandle(e) { DispatchHandle(e); } else { Dispatch(e); }
    }

    method Dispatch(e: Event)
      requires Valid() && conns.Keys <= ws.Keys && Possible(View(), e) && !OfHandle(e)
      modifies this
      ensures View() == Step(cfg, old(View()), e)
    {
      match e {
        case EvOpen(id, s) => OnOpen(id, s);
        case EvAuthOk(s, token) => OnAuthorized(s, token);
        case EvAuthFail(s) => OnRejected(s);
        case EvReconnect(param, s, token) => OnReconnect(param, s, token);
        case EvLeave(s) => OnLeaveMessage(s);
        case EvPeerClosing(s) => SocketClose(s);
        case EvClose(s, code) => OnClose(s, code);
        case EvEarlier(k, h) => OnEarlierHandle(k, h);
        case EvBroadcast(p, reliable, except) => BroadcastTo(p, reliable, except);
        case EvStopBegin => alive := false;
        case EvStopFinish => FinishStop();
      }
    }

    /** What comes through a handle, on the record at hand. */
    method DispatchHandle(e: Event)
      requires OfHandle(e) && HandlePossible(View(), e) && HasSocket(View(), e.id)
      modifies this
      ensures View() == HandleStep(cfg, old(View()), e)
    {
      match e {
        case EvDropDone(id) => AfterOnDrop(id);
        case EvDropThrew(id) =>
          records := records[id := records[id].(pendingDrops := records[id].pendingDrops - 1, dropThrew := true)];
        case EvAllow(id) => HandleAllowReconnection(id);
        case EvTimer(id) => TimerFired(id);
        case EvStray(id) => StrayFired(id);
        case EvDisconnect(id) => EvictClient(id);
        case EvSend(id, p, reliable) => HandleSend(id, p, reliable);
      }
    }

    /** An earlier admission acts on its own record and on the shared maps. */
    method OnEarlierHandle(k: nat, h: Event)
      requires Valid() && Possible(View(), EvEarlier(k, h))
      modifies this
      ensures View() == OnEarlier(cfg, old(View()), k, h)
    {
      ghost var w := View();
      var id := earlier[k].id;
      var latest := records[id];
      records := records[id := earlier[k].r];
      ghost var w0 := AsLatest(w, k);
      HandleVerb(cfg, w0, HandleStep(cfg, w0, h), h);
      DispatchHandle(h);
      assert earlier == w.earlier;
      earlier := earlier[k := Admission(id, records[id])];
      records := records[id := latest];
    }
  }

  /** Records and sockets once the stop has let go of the clients of `done`. */
  ghost function LetGoRecords(w: World, done: set<ClientId>): map<ClientId, Tracked> {
    map c | c in w.records :: if c in done then Dead(w.records[c]) else w.records[c]
  }

  ghost function LetGoSockets(w: World, done: set<ClientId>): map<Sock, Ws> {
    map s | s in w.ws :: if IsCurrent(w, s, done) then CloseWs(w.ws[s]) else w.ws[s]
  }

  lemma LetGoOneMore(w: World, done: set<ClientId>, c: ClientId)
    requires c in w.clients && c !in done && done <= w.clients && w.clients <= w.records.Keys
    requires HasSocket(w, c) && OwnSockets(w, w.clients)
    ensures LetGoRecords(w, done)[c] == w.records[c]
    ensures LetGoRecords(w, done + {c}) == LetGoRecords(w, done)[c := Dead(w.records[c])]
    ensures LetGoSockets(w, done).Keys == w.ws.Keys
    ensures LetGoSockets(w, done + {c}) ==
      if w.records[c].socket.None? then LetGoSockets(w, done)
      else LetGoSockets(w, done)[w.records[c].socket.value := CloseWs(LetGoSockets(w, done)[w.records[c].socket.value])]
  {
    CurrentOneMore(w, done, c);
  }

  /** Sockets once the server has closed the connections of `done`. */
  ghost function ServerClosed(w: World, done: set<Sock>, ws: map<Sock, Ws>): map<Sock, Ws>
    requires ws.Keys == w.ws.Keys
  {
    map s | s in ws :: if s in done then CloseWs(w.ws[s]) else ws[s]
  }

  lemma LetGoKeepsOrCloses(w: World, done: set<ClientId>)
    ensures LetGoSockets(w, done).Keys == w.ws.Keys
    ensures forall s: Sock :: s in w.ws ==>
      LetGoSockets(w, done)[s] == w.ws[s] || LetGoSockets(w, done)[s] == CloseWs(w.ws[s])
  {
  }

  lemma StopInParts(w: World)
    ensures var ws := LetGoSockets(w, w.clients);
      ws.Keys == w.ws.Keys &&
      StopFinish(w) == w.(records := LetGoRecords(w, w.clients), clients := {}, tokens := map[], stopped := true,
                          ws := ServerClosed(w, w.conns.Keys, ws))
  {
  }

  /** The fast path after the publish and the clients of `done`. */
  ghost function FastPart(cfg: Config, w: World, done: set<ClientId>, p: Bytes, reliable: bool): World {
    Delivered(cfg, w, done, p, reliable).(
      ws := map s | s in w.ws ::
        if w.ws[s].ready == Open then
          if s in w.subs then w.ws[s].(wire := w.ws[s].wire + [User(p, reliable)]) else w.ws[s]
        else if IsCurrent(w, s, done) then SendWs(w.ws[s], User(p, reliable))
        else w.ws[s])
  }

  lemma Published(cfg: Config, w: World, ws: map<Sock, Ws>, p: Bytes, reliable: bool)
    requires ws == map s | s in w.ws ::
        if s in w.subs && w.ws[s].ready == Open then w.ws[s].(wire := w.ws[s].wire + [User(p, reliable)]) else w.ws[s]
    ensures w.(ws := ws) == FastPart(cfg, w, {}, p, reliable)
  {
    assert Overflowed(cfg, w, {}, p, reliable) == {};
    assert TokensOf(w, {}) == {};
    assert w.tokens - {} == w.tokens;
  }

  lemma FastPartOfAll(cfg: Config, w: World, p: Bytes, reliable: bool)
    requires w.alive
    ensures FastPart(cfg, w, w.clients, p, reliable) == BroadcastFast(cfg, w, p, reliable)
  {
  }

  lemma FastPartOneMore(cfg: Config, w: World, done: set<ClientId>, c: ClientId, p: Bytes, reliable: bool)
    requires c in w.clients && c !in done && done <= w.clients && w.clients <= w.records.Keys
    requires HasSocket(w, c) && OwnSockets(w, w.clients)
    ensures var d := FastPart(cfg, w, done, p, reliable);
      var d' := FastPart(cfg, w, done + {c}, p, reliable);
      && HasSocket(d, c) && d.records[c] == w.records[c]
      && (w.records[c].socket.Some? ==> d.ws[w.records[c].socket.value].ready == w.ws[w.records[c].socket.value].ready)
      && d'.ws == if w.records[c].socket.None? || w.ws[w.records[c].socket.value].ready == Open then d.ws
                  else d.ws[w.records[c].socket.value := SendWs(d.ws[w.records[c].socket.value], User(p, reliable))]
  {
    CurrentOneMore(w, done, c);
  }

  lemma UnreliableChangesNoRecord(cfg: Config, w: World, p: Bytes)
    requires w.alive && forall c :: c in w.clients ==> c in w.records && w.records[c].alive
    ensures FastPart(cfg, w, {}, p, false) == BroadcastFast(cfg, w, p, false)
  {
    assert Overflowed(cfg, w, w.clients, p, false) == {};
    assert Overflowed(cfg, w, {}, p, false) == {};
    assert TokensOf(w, {}) == {};
    assert Delivered(cfg, w, {}, p, false).records == Delivered(cfg, w, w.clients, p, false).records;
  }
}
