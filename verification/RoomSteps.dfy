/** Every step of the room engine keeps the invariant. */
module RoomSteps {
  import opened Prelude
  import opened RoomSpec
  import opened RoomInvariant

  /** A client whose record and sockets are untouched stays in order. */
  lemma KeepsOrder(w: World, w': World, c: ClientId, r: Tracked, r': Tracked)
    requires GoodHistory(w, c, r) && InOrder(w, c, r)
    requires GoodHistory(w', c, r')
    requires r'.socks == r.socks && r'.buffer == r.buffer && r'.addressed == r.addressed
    requires forall s :: s in r.socks ==> Handed(w'.ws[s]) == Handed(w.ws[s])
    ensures InOrder(w', c, r')
  {
    HandedAllFrame(r.socks, w.ws, w'.ws);
  }

  /** Messages addressed and handed to the current socket keep the order. */
  lemma HandOverKeepsOrder(w: World, w': World, c: ClientId, r: Tracked, r': Tracked, s: Sock, more: seq<Bytes>)
    requires GoodHistory(w, c, r) && InOrder(w, c, r) && r.alive && r.buffer == []
    requires r.socket == Some(s) && w.ws[s].ready != Closed
    requires GoodHistory(w', c, r')
    requires r'.socks == r.socks && r'.buffer == [] && r'.addressed == r.addressed + more
    requires Handed(w'.ws[s]) == Handed(w.ws[s]) + more
    requires forall x :: x in r.socks && x != s ==> Handed(w'.ws[x]) == Handed(w.ws[x])
    ensures InOrder(w', c, r')
  {
    var before := r.socks[..|r.socks| - 1];
    assert r.socks == before + [s];
    HandedAllFrame(before, w.ws, w'.ws);
    HandedAllLast(before, s, w.ws);
    HandedAllLast(before, s, w'.ws);
  }

  /** A step that touches neither clients nor tokens nor connections, and one
      socket only in that it may start closing or carry protocol frames. */
  lemma SocketKeeps(cfg: Config, w: World, s: Sock, x: Ws)
    requires Inv(cfg, w) && s in w.ws
    requires x.owner == w.ws[s].owner && Handed(x) == Handed(w.ws[s]) && (x.ready == Open ==> x.lost == [])
    requires x.ready == w.ws[s].ready || (w.ws[s].ready == Open && x.ready == Closing)
    ensures Inv(cfg, w.(ws := w.ws[s := x]))
  {
    var w' := w.(ws := w.ws[s := x]);
    forall c ensures GoodClient(cfg, w', c) {
      assert GoodClient(cfg, w, c);
      if c in w.clients { KeepsOrder(w, w', c, w.records[c], w'.records[c]); }
    }
    forall t ensures GoodToken(w', t) { assert GoodToken(w, t); }
    forall y ensures GoodSock(w', y) { assert GoodSock(w, y); }
    forall c ensures GoodName(w', c) { assert GoodName(w, c); }
  }

  lemma SendToKeeps(cfg: Config, w: World, s: Sock, f: Frame)
    requires Inv(cfg, w) && s in w.ws && !f.User?
    ensures Inv(cfg, SendTo(w, s, f))
  {
    assert GoodSock(w, s);
    HandedAfterSend(w.ws[s], f);
    SocketKeeps(cfg, w, s, SendWs(w.ws[s], f));
  }

  lemma CloseSocketKeeps(cfg: Config, w: World, s: Sock)
    requires Inv(cfg, w) && s in w.ws
    ensures Inv(cfg, CloseSocket(w, s))
  {
    assert GoodSock(w, s);
    SocketKeeps(cfg, w, s, CloseWs(w.ws[s]));
  }

  lemma RefuseKeeps(cfg: Config, w: World, s: Sock, error: string)
    requires Inv(cfg, w) && s in w.ws
    ensures Inv(cfg, CloseSocket(SendTo(w, s, AuthError(error)), s))
  {
    SendToKeeps(cfg, w, s, AuthError(error));
    CloseSocketKeeps(cfg, SendTo(w, s, AuthError(error)), s);
  }

  lemma UpgradeKeepsClient(cfg: Config, w: World, id: ClientId, s: Sock, c: ClientId)
    requires GoodClient(cfg, w, c) && GoodName(w, id)
    requires s !in w.ws && !Connected(w, id)
    ensures GoodClient(cfg, CompleteUpgrade(w, id, s), c)
  {
    if c in w.clients {
      KeepsOrder(w, CompleteUpgrade(w, id, s), c, w.records[c], w.records[c]);
    }
  }

  lemma UpgradeKeepsSock(cfg: Config, w: World, id: ClientId, s: Sock, x: Sock)
    requires GoodSock(w, x) && GoodSock(w, s) && GoodName(w, id) && GoodClient(cfg, w, id)
    requires id in w.clientSockets ==> GoodSock(w, w.clientSockets[id])
    requires s !in w.ws && id !in w.pending.Values
    requires !Connected(w, id)
    ensures GoodSock(CompleteUpgrade(w, id, s), x)
  {
    assert x in w.pending ==> w.pending[x] in w.pending.Values;
  }

  /** Taking over a client id keeps the invariant when no live client and no
      pending onAuth is behind the socket that is stripped. */
  lemma UpgradeKeeps(cfg: Config, w: World, id: ClientId, s: Sock)
    requires Inv(cfg, w) && s !in w.ws && id !in w.pending.Values
    requires !Connected(w, id)
    ensures Inv(cfg, CompleteUpgrade(w, id, s))
  {
    var w' := CompleteUpgrade(w, id, s);
    assert GoodName(w, id) && GoodClient(cfg, w, id) && GoodSock(w, s);
    if id in w.clientSockets { assert GoodSock(w, w.clientSockets[id]); }
    forall c ensures GoodClient(cfg, w', c) {
      assert GoodClient(cfg, w, c);
      UpgradeKeepsClient(cfg, w, id, s, c);
    }
    forall t ensures GoodToken(w', t) { assert GoodToken(w, t); }
    forall x ensures GoodSock(w', x) {
      assert GoodSock(w, x);
      UpgradeKeepsSock(cfg, w, id, s, x);
    }
    forall c ensures GoodName(w', c) { assert GoodName(w, c); }
  }

  lemma AuthStartKeeps(cfg: Config, w: World, id: ClientId, s: Sock)
    requires Inv(cfg, w) && !w.stopped && s in w.ws && w.ws[s].ready != Closed && Handed(w.ws[s]) == []
    requires id !in w.clients && id !in w.pending.Values && s !in w.subs
    requires s in w.conns && w.conns[s] == id && id in w.clientSockets && w.clientSockets[id] == s
    ensures Inv(cfg, w.(pending := w.pending[s := id]))
  {
    var w' := w.(pending := w.pending[s := id]);
    forall c ensures GoodClient(cfg, w', c) {
      assert GoodClient(cfg, w, c);
      if c in w.clients { KeepsOrder(w, w', c, w.records[c], w'.records[c]); }
    }
    forall t ensures GoodToken(w', t) { assert GoodToken(w, t); }
    forall x ensures GoodSock(w', x) { assert GoodSock(w, x); }
    forall c ensures GoodName(w', c) { assert GoodName(w, c); }
  }

  lemma OpenKeeps(cfg: Config, w: World, id: ClientId, s: Sock)
    requires Inv(cfg, w) && Enabled(w, EvOpen(id, s))
    ensures Inv(cfg, OpenStart(w, id, s))
  {
    UpgradeKeeps(cfg, w, id, s);
    assert GoodClient(cfg, w, id) && GoodSock(w, s);
    var w1 := CompleteUpgrade(w, id, s);
    if id in w.clients { RefuseKeeps(cfg, w1, s, "seat already in use"); } else { AuthStartKeeps(cfg, w1, id, s); }
  }

  lemma AdmittedIsGood(cfg: Config, w: World, s: Sock, token: Token)
    requires GoodSock(w, s) && s in w.pending
    ensures GoodClient(cfg, AuthOk(w, s, token), w.pending[s])
  {
    var w' := AuthOk(w, s, token);
    HandedAfterSend(w.ws[s], Session(token, w.pending[s]));
    HandedAllLast([], s, w'.ws);
    assert [] + [s] == [s];
  }

  lemma AdmitKeepsClient(cfg: Config, w: World, s: Sock, token: Token, c: ClientId)
    requires GoodClient(cfg, w, c) && GoodSock(w, s) && s in w.pending && token !in w.issued
    requires c in w.clients ==> GoodToken(w, w.records[c].token)
    requires c != w.pending[s]
    ensures GoodClient(cfg, AuthOk(w, s, token), c)
  {
    HandedAfterSend(w.ws[s], Session(token, w.pending[s]));
    if c in w.clients {
      KeepsOrder(w, AuthOk(w, s, token), c, w.records[c], w.records[c]);
    }
  }

  lemma AdmitKeepsSock(w: World, s: Sock, token: Token, x: Sock)
    requires GoodSock(w, x) && GoodSock(w, s) && s in w.pending
    ensures GoodSock(AuthOk(w, s, token), x)
  {
    assert x in w.pending && x != s ==> w.pending[x] != w.pending[s];
  }

  lemma AuthOkKeeps(cfg: Config, w: World, s: Sock, token: Token)
    requires Inv(cfg, w) && Enabled(w, EvAuthOk(s, token))
    ensures s in w.ws && Inv(cfg, AuthOk(w, s, token))
  {
    assert GoodSock(w, s);
    var w' := AuthOk(w, s, token);
    var id := w.pending[s];
    forall c ensures GoodClient(cfg, w', c) {
      assert GoodClient(cfg, w, c);
      if c in w.clients { assert GoodToken(w, w.records[c].token); }
      if c == id { AdmittedIsGood(cfg, w, s, token); } else { AdmitKeepsClient(cfg, w, s, token, c); }
    }
    forall t ensures GoodToken(w', t) { assert GoodToken(w, t); }
    forall x ensures GoodSock(w', x) {
      assert GoodSock(w, x);
      AdmitKeepsSock(w, s, token, x);
    }
    forall c ensures GoodName(w', c) { assert GoodName(w, c); }
    assert GoodClient(cfg, w, id);
    forall k | 0 <= k < |w'.earlier| ensures GoodEarlier(w', w'.earlier[k]) {
      if k < |w.earlier| { assert GoodEarlier(w, w.earlier[k]); }
    }
  }

  lemma AuthFailKeeps(cfg: Config, w: World, s: Sock)
    requires Inv(cfg, w) && Enabled(w, EvAuthFail(s))
    ensures s in w.ws && Inv(cfg, AuthFail(w, s))
  {
    assert GoodSock(w, s);
    var w1 := w.(pending := w.pending - {s});
    forall c ensures GoodClient(cfg, w1, c) {
      assert GoodClient(cfg, w, c);
      if c in w.clients { KeepsOrder(w, w1, c, w.records[c], w1.records[c]); }
    }
    forall t ensures GoodToken(w1, t) { assert GoodToken(w, t); }
    forall x ensures GoodSock(w1, x) { assert GoodSock(w, x); }
    forall c ensures GoodName(w1, c) { assert GoodName(w, c); }
    RefuseKeeps(cfg, w1, s, "rejected");
  }

  /** Dropping a client whose socket, if any, is already closing. */
  lemma DropKeepsClient(cfg: Config, w: World, w': World, id: ClientId, c: ClientId)
    requires GoodClient(cfg, w, c) && GoodClient(cfg, w, id) && id in w.records && w.records[id].alive
    requires w' == w.(records := w.records[id := Dead(w.records[id])], tokens := w.tokens - {w.records[id].token},
                      clients := w.clients - {id})
    ensures GoodClient(cfg, w', c)
  {
    if c in w.clients && c != id {
      KeepsOrder(w, w', c, w.records[c], w.records[c]);
    }
  }

  lemma EvictKeeps(cfg: Config, w: World, id: ClientId)
    requires Inv(cfg, w) && HasSocket(w, id)
    ensures Inv(cfg, Evict(w, id))
  {
    var r := w.records[id];
    assert GoodClient(cfg, w, id);
    if r.alive {
      // close first, then drop the client: the two commute
      var w1 := w;
      if r.socket.Some? {
        CloseSocketKeeps(cfg, w, r.socket.value);
        w1 := CloseSocket(w, r.socket.value);
      }
      var w' := Evict(w, id);
      assert w'.ws == w1.ws;
      assert GoodClient(cfg, w1, id);
      forall c ensures GoodClient(cfg, w', c) {
        assert GoodClient(cfg, w1, c);
        DropKeepsClient(cfg, w1, w', id, c);
      }
      forall t ensures GoodToken(w', t) { assert GoodToken(w1, t); }
      forall x ensures GoodSock(w', x) { assert GoodSock(w1, x); }
      forall c ensures GoodName(w', c) { assert GoodName(w1, c); }
    }
  }

  /** One client's record changes in its timer, its pending drops, its buffer or
      its addressed messages; everything else stays. */
  lemma RecordKeeps(cfg: Config, w: World, id: ClientId, r': Tracked)
    requires Inv(cfg, w) && id in w.records
    requires var r := w.records[id];
      && r'.alive == r.alive && r'.socket == r.socket && r'.token == r.token && r'.socks == r.socks
      && GoodRecord(cfg, r')
      && (r.alive ==> r'.buffer == r.buffer && r'.addressed == r.addressed)
    ensures Inv(cfg, w.(records := w.records[id := r']))
  {
    var w' := w.(records := w.records[id := r']);
    forall c ensures GoodClient(cfg, w', c) {
      assert GoodClient(cfg, w, c);
      if c in w.clients { KeepsOrder(w, w', c, w.records[c], w'.records[c]); }
    }
    forall t ensures GoodToken(w', t) { assert GoodToken(w, t); }
    forall x ensures GoodSock(w', x) { assert GoodSock(w, x); }
    forall c ensures GoodName(w', c) { assert GoodName(w, c); }
  }

  // --- earlier admissions ---

  /** What is left to a record that is over. */
  lemma DeadVerb(cfg: Config, w: World, w': World, e: Event)
    requires OfHandle(e) && HandlePossible(w, e) && HasSocket(w, e.id) && w' == HandleStep(cfg, w, e)
    requires var r := w.records[e.id]; !r.alive && !r.timer && r.strays == 0
    ensures var r, n := w.records[e.id], if e.EvDropDone? || e.EvDropThrew? then 1 else 0;
      n <= r.pendingDrops
      && w' == w.(records := w.records[e.id := r.(pendingDrops := r.pendingDrops - n,
                                                  dropThrew := r.dropThrew || e.EvDropThrew?)])
  {
    match e
    case EvDropDone(id) => assert DropDone(w, id) == w';
    case EvDropThrew(id) => assert DropThrew(w, id) == w';
    case EvAllow(id) => assert w.records[id := w.records[id]] == w.records;
    case EvDisconnect(id) => assert w.records[id := w.records[id]] == w.records;
    case EvSend(id, p, reliable) => assert w.records[id := w.records[id]] == w.records;
  }

  /** An admission that is over can only settle its onDrops. */
  lemma OverIsInert(cfg: Config, w: World, w': World, k: nat, e: Event)
    requires Grounded(w) && Possible(w, EvEarlier(k, e)) && w' == Step(cfg, w, EvEarlier(k, e))
    requires GoodEarlier(w, w.earlier[k])
    ensures w'.earlier == w.earlier[k := w'.earlier[k]] && GoodEarlier(w', w'.earlier[k])
    ensures w' == w.(earlier := w'.earlier)
  {
    var w0 := AsLatest(w, k);
    DeadVerb(cfg, w0, HandleStep(cfg, w0, e), e);
    assert w'.records == w.records;
  }

  lemma EarlierKeeps(cfg: Config, w: World, w': World, k: nat)
    requires Inv(cfg, w) && k < |w.earlier| && w' == w.(earlier := w'.earlier) && |w'.earlier| == |w.earlier|
    requires w'.earlier == w.earlier[k := w'.earlier[k]] && GoodEarlier(w', w'.earlier[k])
    ensures Inv(cfg, w')
  {
    forall c ensures GoodClient(cfg, w', c) { assert GoodClient(cfg, w, c); }
    forall t ensures GoodToken(w', t) { assert GoodToken(w, t); }
    forall s ensures GoodSock(w', s) { assert GoodSock(w, s); }
    forall c ensures GoodName(w', c) { assert GoodName(w, c); }
    forall i | 0 <= i < |w'.earlier| ensures GoodEarlier(w', w'.earlier[i]) {
      assert GoodEarlier(w, w.earlier[i]);
    }
  }

  // --- reconnection ---

  /** The flush hands over exactly the buffer, before the session frame. */
  lemma FlushHandsOver(x: Ws, buffer: seq<Bytes>, f: Frame)
    requires (x.ready == Open ==> x.lost == []) && Handed(x) == [] && !f.User?
    ensures Handed(SendWs(Flush(x, buffer), f)) == buffer
  {
    HandedAfterFlush(x, buffer);
    HandedAfterSend(Flush(x, buffer), f);
  }

  lemma ResumedIsGood(cfg: Config, w: World, id: ClientId, s: Sock, token: Token)
    requires GoodClient(cfg, w, id) && GoodSock(w, s) && s in w.ws && id in w.clients
    requires w.records[id].socket.None? && w.ws[s].ready != Closed && Handed(w.ws[s]) == []
    requires s in w.conns && w.conns[s] == id && id in w.clientSockets && w.clientSockets[id] == s
    ensures GoodClient(cfg, Resume(w, id, s, token), id)
  {
    var r := w.records[id];
    var w' := Resume(w, id, s, token);
    assert w'.records[id].socks == r.socks + [s];
    assert GoodHistory(w', id, w'.records[id]);
    assert HandedAll(r.socks + [s], w'.ws) + [] == r.addressed by {
      FlushHandsOver(w.ws[s], r.buffer, Session(token, id));
      HandedAllFrame(r.socks, w.ws, w'.ws);
      HandedAllLast(r.socks, s, w'.ws);
    }
  }

  lemma ResumeKeepsClient(cfg: Config, w: World, id: ClientId, s: Sock, token: Token, c: ClientId)
    requires GoodClient(cfg, w, c) && GoodClient(cfg, w, id) && GoodSock(w, s) && s in w.ws && id in w.clients
    requires c in w.clients ==> GoodToken(w, w.records[c].token)
    requires s in w.conns && w.conns[s] == id && token !in w.issued && c != id
    ensures GoodClient(cfg, Resume(w, id, s, token), c)
  {
    if c in w.clients {
      KeepsOrder(w, Resume(w, id, s, token), c, w.records[c], w.records[c]);
    }
  }

  lemma ResumeKeepsSock(w: World, id: ClientId, s: Sock, token: Token, x: Sock)
    requires GoodSock(w, x) && GoodSock(w, s) && s in w.ws && id in w.clients && id in w.records && s !in w.pending
    requires w.records[id].socket.None? && s in w.conns && w.conns[s] == id
    ensures GoodSock(Resume(w, id, s, token), x)
  {
  }

  lemma ResumeKeeps(cfg: Config, w: World, id: ClientId, s: Sock, token: Token)
    requires Inv(cfg, w) && s in w.ws && s !in w.pending && id in w.clients && id in w.records && token !in w.issued
    requires w.records[id].socket.None? && Handed(w.ws[s]) == []
    requires s in w.conns && w.conns[s] == id && id in w.clientSockets && w.clientSockets[id] == s
    ensures Inv(cfg, Resume(w, id, s, token))
  {
    var w' := Resume(w, id, s, token);
    assert GoodClient(cfg, w, id) && GoodSock(w, s);
    forall c ensures GoodClient(cfg, w', c) {
      assert GoodClient(cfg, w, c);
      if c == id {
        ResumedIsGood(cfg, w, id, s, token);
      } else {
        if c in w.clients { assert GoodToken(w, w.records[c].token); }
        ResumeKeepsClient(cfg, w, id, s, token, c);
      }
    }
    forall t ensures GoodToken(w', t) { assert GoodToken(w, t); }
    forall x ensures GoodSock(w', x) {
      assert GoodSock(w, x);
      ResumeKeepsSock(w, id, s, token, x);
    }
    forall c ensures GoodName(w', c) { assert GoodName(w, c); }
  }

  lemma ReconnectKeeps(cfg: Config, w: World, param: Token, s: Sock, token: Token)
    requires Inv(cfg, w) && Enabled(w, EvReconnect(param, s, token))
    ensures Inv(cfg, Reconnect(w, param, s, token))
  {
    var id := Resolve(w, param);
    assert GoodClient(cfg, w, id) && GoodSock(w, s);
    if Waiting(w, id) {
      NoPendingForTracked(cfg, w, id);
      UpgradeKeeps(cfg, w, id, s);
      ResumeKeeps(cfg, CompleteUpgrade(w, id, s), id, s, token);
    } else {
      UpgradeKeeps(cfg, w, id, s);
      RefuseKeeps(cfg, CompleteUpgrade(w, id, s), s, "invalid session");
    }
  }

  lemma NoPendingForTracked(cfg: Config, w: World, id: ClientId)
    requires Inv(cfg, w) && id in w.clients
    ensures id !in w.pending.Values
  {
    forall s | s in w.pending ensures w.pending[s] != id { assert GoodSock(w, s); }
  }

  // --- closing ---

  lemma LeaveKeeps(cfg: Config, w: World, s: Sock)
    requires Inv(cfg, w)
    ensures Inv(cfg, Leave(w, s))
  {
    if Leave(w, s) != w {
      CloseSocketKeeps(cfg, w, w.records[w.conns[s]].socket.value);
    }
  }

  /** The transport's own cleanup when socket s closes. */
  function Forget(w: World, s: Sock): World
    requires s in w.ws
  {
    w.(subs := w.subs - {s}, conns := w.conns - {s}, ws := w.ws[s := w.ws[s].(ready := Closed)],
       clientSockets :=
         if s in w.conns && w.conns[s] in w.clientSockets && w.clientSockets[w.conns[s]] == s
         then w.clientSockets - {w.conns[s]} else w.clientSockets)
  }

  /** The cleanup, field by field. */
  ghost predicate Forgets(w: World, w': World, s: Sock) {
    && s in w.ws && w'.subs == w.subs - {s} && w'.conns == w.conns - {s}
    && w'.ws == w.ws[s := w.ws[s].(ready := Closed)]
    && w'.clientSockets == (if s in w.conns && w.conns[s] in w.clientSockets && w.clientSockets[w.conns[s]] == s
         then w.clientSockets - {w.conns[s]} else w.clientSockets)
    && w'.clients == w.clients && w'.tokens == w.tokens && w'.pending == w.pending && w'.issued == w.issued
    && w'.alive == w.alive && w'.stopped == w.stopped
  }

  lemma ForgetIs(w: World, w': World, s: Sock)
    requires s in w.ws && w' == Forget(w, s)
    ensures Forgets(w, w', s) && w'.records == w.records
  {
  }

  /** What the cleanup leaves of the transport's maps for another client's socket. */
  lemma ForgetSparesSocket(w: World, w': World, s: Sock, c: ClientId, x: Sock)
    requires CurrentSocket(w, c, x) && x != s && Forgets(w, w', s)
    ensures CurrentSocket(w', c, x)
  {
  }

  lemma ForgetKeepsClient(cfg: Config, w: World, w': World, s: Sock, c: ClientId)
    requires GoodClient(cfg, w, c) && Forgets(w, w', s)
    requires c in w.records ==> c in w'.records && w'.records[c] == w.records[c]
    requires c in w'.records ==> c in w.records
    requires c in w.clients ==> w.records[c].socket != Some(s)
    ensures GoodClient(cfg, w', c)
  {
    if c in w.clients {
      var r := w.records[c];
      if r.socket.Some? { ForgetSparesSocket(w, w', s, c, r.socket.value); }
      assert GoodHistory(w', c, r);
      KeepsOrder(w, w', c, r, r);
    }
  }

  lemma ForgetKeepsSock(w: World, w': World, s: Sock, x: Sock)
    requires GoodSock(w, x) && x != s && s !in w.pending && Forgets(w, w', s) && w'.records == w.records
    requires x in w.conns && w.conns[x] in w.clientSockets ==> GoodName(w, w.conns[x])
    ensures GoodSock(w', x)
  {
    assert x in w'.pending ==> w'.pending[x] in w'.clientSockets && w'.clientSockets[w'.pending[x]] == x;
  }

  lemma ForgetKeeps(cfg: Config, w: World, s: Sock)
    requires Inv(cfg, w) && s in w.ws && s !in w.pending
    requires s in w.conns && w.conns[s] in w.clients && w.conns[s] in w.records ==>
      w.records[w.conns[s]].socket != Some(s)
    ensures Inv(cfg, Forget(w, s))
  {
    var w' := Forget(w, s);
    assert GoodSock(w, s);
    ForgetIs(w, w', s);
    forall c ensures GoodClient(cfg, w', c) {
      assert GoodClient(cfg, w, c);
      ForgetKeepsClient(cfg, w, w', s, c);
    }
    forall t ensures GoodToken(w', t) { assert GoodToken(w, t); }
    forall x ensures GoodSock(w', x) {
      assert GoodSock(w, x);
      if x in w.conns { assert GoodName(w, w.conns[x]); }
      if x != s { ForgetKeepsSock(w, w', s, x); }
    }
    forall c ensures GoodName(w', c) { assert GoodName(w, c); }
  }

  lemma DroppedIsGood(cfg: Config, w: World, w': World, s: Sock, id: ClientId)
    requires GoodClient(cfg, w, id) && id in w.clients && w.records[id].socket == Some(s) && Forgets(w, w', s)
    requires w'.records == w.records[id := w.records[id].(
                               socket := None, pendingDrops := w.records[id].pendingDrops + 1)]
    ensures GoodClient(cfg, w', id)
  {
    KeepsOrder(w, w', id, w.records[id], w'.records[id]);
  }

  lemma DropSocketKeeps(cfg: Config, w: World, s: Sock, id: ClientId)
    requires Inv(cfg, w) && id in w.clients && id in w.records && s in w.ws && s !in w.pending
    requires w.records[id].socket == Some(s)
    ensures Inv(cfg, Forget(w, s).(records := w.records[id := w.records[id].(
              socket := None, pendingDrops := w.records[id].pendingDrops + 1)]))
  {
    var r := w.records[id];
    var w' := Forget(w, s).(records := w.records[id := r.(socket := None, pendingDrops := r.pendingDrops + 1)]);
    assert GoodClient(cfg, w, id) && GoodSock(w, s);
    ForgetIs(w, Forget(w, s), s);
    assert Forgets(w, w', s);
    forall c ensures GoodClient(cfg, w', c) {
      assert GoodClient(cfg, w, c);
      if c == id { DroppedIsGood(cfg, w, w', s, id); } else { ForgetKeepsClient(cfg, w, w', s, c); }
    }
    forall t ensures GoodToken(w', t) { assert GoodToken(w, t); }
    forall x ensures GoodSock(w', x) { assert GoodSock(w, x); }
    forall c ensures GoodName(w', c) { assert GoodName(w, c); }
  }

  lemma ConsentedCloseKeeps(cfg: Config, w: World, s: Sock, id: ClientId)
    requires Inv(cfg, w) && s in w.ws && s !in w.pending && HasSocket(w, id) && id in w.clients
    requires s in w.conns && w.conns[s] == id
    ensures Inv(cfg, Forget(Evict(w, id), s))
  {
    EvictKeeps(cfg, w, id);
    assert GoodClient(cfg, w, id);
    ForgetKeeps(cfg, Evict(w, id), s);
  }

  lemma WsCloseKeeps(cfg: Config, w: World, s: Sock, code: int)
    requires Inv(cfg, w) && Enabled(w, EvClose(s, code)) && Grounded(w)
    ensures Inv(cfg, WsClose(cfg, w, s, code))
  {
    assert GoodSock(w, s);
    if s in w.conns && w.conns[s] in w.clientSockets && w.clientSockets[w.conns[s]] == s && w.conns[s] in w.clients {
      var id := w.conns[s];
      assert HasSocket(w, id);
      if code == CONSENTED || !cfg.hasOnDrop {
        ConsentedCloseKeeps(cfg, w, s, id);
        ConsentedCloseIs(cfg, w, s, code);
      } else {
        DropKeeps(cfg, w, s, code, id);
      }
    } else {
      assert s in w.conns ==> GoodClient(cfg, w, w.conns[s]);
      ForgetKeeps(cfg, w, s);
    }
  }

  /** Evicting and the transport's cleanup commute. */
  lemma ConsentedCloseIs(cfg: Config, w: World, s: Sock, code: int)
    requires Inv(cfg, w) && Enabled(w, EvClose(s, code)) && Grounded(w)
    requires s in w.conns && w.conns[s] in w.clientSockets && w.clientSockets[w.conns[s]] == s
    requires w.conns[s] in w.clients
    requires code == CONSENTED || !cfg.hasOnDrop
    ensures HasSocket(w, w.conns[s]) && s in Evict(w, w.conns[s]).ws
    ensures WsClose(cfg, w, s, code) == Forget(Evict(w, w.conns[s]), s)
  {
    var id := w.conns[s];
    assert GoodClient(cfg, w, id);
    assert WsClose(cfg, w, s, code).ws == Forget(Evict(w, id), s).ws;
  }

  lemma DropKeeps(cfg: Config, w: World, s: Sock, code: int, id: ClientId)
    requires Inv(cfg, w) && Enabled(w, EvClose(s, code)) && Grounded(w)
    requires s in w.conns && w.conns[s] == id && id in w.clientSockets && w.clientSockets[id] == s && id in w.clients
    requires code != CONSENTED && cfg.hasOnDrop
    ensures Inv(cfg, WsClose(cfg, w, s, code))
  {
    assert GoodClient(cfg, w, id);
    var r := w.records[id];
    if r.socket == Some(s) {
      DropSocketKeeps(cfg, w, s, id);
    } else {
      ForgetKeeps(cfg, w, s);
      RecordKeeps(cfg, Forget(w, s), id, r.(pendingDrops := r.pendingDrops + 1));
    }
  }

  lemma DropDoneIs(w: World, id: ClientId)
    requires HasSocket(w, id) && w.records[id].pendingDrops > 0 && w.records[id].alive
    requires !w.records[id].timer && w.records[id].socket.None? && id in w.clients
    ensures DropDone(w, id) ==
      var w1 := Evict(w, id);
      w1.(records := w1.records[id := Dead(w.records[id]).(pendingDrops := w.records[id].pendingDrops - 1)])
  {
  }

  lemma DropDoneKeeps(cfg: Config, w: World, id: ClientId)
    requires Inv(cfg, w) && HasSocket(w, id) && w.records[id].pendingDrops > 0
    ensures Inv(cfg, DropDone(w, id))
  {
    assert GoodClient(cfg, w, id);
    var r := w.records[id];
    if !r.timer && r.socket.None? && id in w.clients {
      // evicting first and forgetting the pending onDrop afterwards is the same
      EvictKeeps(cfg, w, id);
      RecordKeeps(cfg, Evict(w, id), id, Dead(r).(pendingDrops := r.pendingDrops - 1));
      DropDoneIs(w, id);
    } else {
      RecordKeeps(cfg, w, id, r.(pendingDrops := r.pendingDrops - 1));
    }
  }

  lemma TimerKeeps(cfg: Config, w: World, id: ClientId)
    requires Inv(cfg, w) && HasSocket(w, id) && w.records[id].timer
    ensures Inv(cfg, TimerFires(w, id))
  {
    assert GoodClient(cfg, w, id);
    EvictKeeps(cfg, w, id);
    assert TimerFires(w, id) == Evict(w, id);
  }
}
