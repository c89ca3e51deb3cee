/** Sending and broadcasting: the publish fast path has the effect of the loop
    over clients, and both keep every client's messages in order. */
module RoomBroadcast {
  import opened Prelude
  import opened RoomSpec
  import opened RoomInvariant
  import opened RoomSteps

  /** Being some client's current socket, spelled out by the transport's maps. */
  lemma CurrentIff(cfg: Config, w: World, s: Sock, ids: set<ClientId>)
    requires Inv(cfg, w) && ids <= w.clients
    ensures IsCurrent(w, s, ids) <==>
      s in w.conns && w.conns[s] in ids && w.conns[s] in w.records && w.records[w.conns[s]].socket == Some(s)
  {
    forall c | c in ids && c in w.records && w.records[c].socket == Some(s)
      ensures s in w.conns && w.conns[s] == c
    {
      assert GoodClient(cfg, w, c);
    }
  }

  /** An open socket is subscribed iff it is some tracked client's current socket. */
  lemma OpenSubscribedIffCurrent(cfg: Config, w: World, s: Sock)
    requires Inv(cfg, w) && s in w.ws && w.ws[s].ready == Open
    ensures s in w.subs <==> IsCurrent(w, s, w.clients)
  {
    assert GoodSock(w, s);
    CurrentIff(cfg, w, s, w.clients);
    if IsCurrent(w, s, w.clients) { assert GoodClient(cfg, w, w.conns[s]); }
  }

  /** Publishing to the topic and buffering for the disconnected has the same
      effect, on every socket, buffer and index, as the loop with nobody excluded. */
  lemma FastPathRefinesLoop(cfg: Config, w: World, p: Bytes, reliable: bool)
    requires Inv(cfg, w)
    ensures BroadcastFast(cfg, w, p, reliable) == BroadcastLoop(cfg, w, p, reliable, {})
  {
    forall s | s in w.ws
      ensures PublishWs(w, s, p, reliable) ==
        if IsCurrent(w, s, w.clients) then SendWs(w.ws[s], User(p, reliable)) else w.ws[s]
    {
      if w.ws[s].ready == Open { OpenSubscribedIffCurrent(cfg, w, s); }
    }
    assert w.clients - {} == w.clients;
  }

  lemma DeliverKeepsRecord(cfg: Config, r: Tracked, p: Bytes, reliable: bool)
    requires GoodRecord(cfg, r) && r.alive
    ensures GoodRecord(cfg, Deliver(cfg, r, p, reliable))
  {
    SumAppend(r.buffer, p);
  }

  /** A multicast touches only the current socket of a client, and only if addressed. */
  lemma OtherSocketsUntouched(cfg: Config, w: World, ids: set<ClientId>, p: Bytes, reliable: bool, c: ClientId, s: Sock)
    requires Inv(cfg, w) && ids <= w.clients && c in w.clients && c in w.records
    requires s in w.records[c].socks && (c !in ids || w.records[c].socket != Some(s))
    ensures s in w.ws && Multicast(cfg, w, ids, p, reliable).ws[s] == w.ws[s]
  {
    assert GoodClient(cfg, w, c);
    CurrentIff(cfg, w, s, ids);
    if s in w.conns { assert GoodSock(w, s); }
  }

  /** The client's current socket gets the message. */
  lemma CurrentGetsIt(cfg: Config, w: World, ids: set<ClientId>, p: Bytes, reliable: bool, c: ClientId)
    requires Inv(cfg, w) && ids <= w.clients && c in ids && c in w.records && w.records[c].socket.Some?
    ensures var s := w.records[c].socket.value;
      s in w.ws && w.ws[s].ready != Closed
      && Handed(Multicast(cfg, w, ids, p, reliable).ws[s]) == Handed(w.ws[s]) + if reliable then [p] else []
  {
    var s := w.records[c].socket.value;
    assert GoodClient(cfg, w, c) && GoodSock(w, s);
    CurrentIff(cfg, w, s, ids);
    HandedAfterSend(w.ws[s], User(p, reliable));
  }

  lemma OthersHandedSame(cfg: Config, w: World, w': World, ids: set<ClientId>, p: Bytes, reliable: bool, c: ClientId)
    requires Inv(cfg, w) && ids <= w.clients && c in ids && c in w.records && w' == Multicast(cfg, w, ids, p, reliable)
    ensures forall s :: s in w.records[c].socks && w.records[c].socket != Some(s) ==>
      s in w.ws && s in w'.ws && w'.ws[s] == w.ws[s]
  {
    forall s | s in w.records[c].socks && w.records[c].socket != Some(s)
      ensures s in w.ws && s in w'.ws && w'.ws[s] == w.ws[s]
    {
      OtherSocketsUntouched(cfg, w, ids, p, reliable, c, s);
    }
  }

  lemma DeliverKeepsOrder(cfg: Config, w: World, w': World, ids: set<ClientId>, p: Bytes, reliable: bool, c: ClientId)
    requires Inv(cfg, w) && ids <= w.clients && c in ids && c in w.records
    requires w' == Multicast(cfg, w, ids, p, reliable) && w'.records[c].alive
    requires GoodHistory(w', c, w'.records[c])
    ensures InOrder(w', c, w'.records[c])
  {
    var r, r' := w.records[c], w'.records[c];
    assert GoodClient(cfg, w, c);
    OthersHandedSame(cfg, w, w', ids, p, reliable, c);
    if r.socket.Some? {
      CurrentGetsIt(cfg, w, ids, p, reliable, c);
      HandOverKeepsOrder(w, w', c, r, r', r.socket.value, if reliable then [p] else []);
    } else {
      HandedAllFrame(r.socks, w.ws, w'.ws);
    }
  }

  /** A multicast leaves the sockets' owners, states and mappings alone. */
  lemma DeliverKeepsSockets(cfg: Config, w: World, ids: set<ClientId>, p: Bytes, reliable: bool, c: ClientId)
    requires GoodClient(cfg, w, c) && c in w.clients && c in ids
    ensures var w' := Multicast(cfg, w, ids, p, reliable);
      var r := w.records[c];
      var r' := Deliver(cfg, r, p, reliable);
      && c in w'.records && w'.records[c] == r' && r'.socks == r.socks && r'.socket == r.socket && r'.token == r.token
      && GoodHistory(w', c, r')
      && (r.socket.Some? ==> CurrentSocket(w', c, r.socket.value))
  {
  }

  lemma DeliverKeepsClient(cfg: Config, w: World, ids: set<ClientId>, p: Bytes, reliable: bool, c: ClientId)
    requires Inv(cfg, w) && ids <= w.clients && c in ids && c in w.records
    ensures GoodClient(cfg, Multicast(cfg, w, ids, p, reliable), c)
  {
    assert GoodClient(cfg, w, c);
    var w' := Multicast(cfg, w, ids, p, reliable);
    DeliverKeepsSockets(cfg, w, ids, p, reliable, c);
    DeliverKeepsRecord(cfg, w.records[c], p, reliable);
    if w'.records[c].alive {
      OthersTokenStays(cfg, w, ids, p, reliable, c);
      DeliverKeepsOrder(cfg, w, w', ids, p, reliable, c);
      SurvivorIsGood(cfg, w', c);
    } else {
      assert c in Overflowed(cfg, w, ids, p, reliable);
    }
  }

  /** The clauses about a tracked client, put together. */
  lemma SurvivorIsGood(cfg: Config, w: World, c: ClientId)
    requires c in w.clients && c in w.records && w.records[c].alive && GoodRecord(cfg, w.records[c])
    requires GoodHistory(w, c, w.records[c]) && InOrder(w, c, w.records[c])
    requires w.records[c].socket.Some? ==> CurrentSocket(w, c, w.records[c].socket.value)
    requires w.records[c].token in w.tokens && w.tokens[w.records[c].token] == c
    ensures GoodClient(cfg, w, c)
  {
  }

  /** A client that survives keeps its index entry. */
  lemma OthersTokenStays(cfg: Config, w: World, ids: set<ClientId>, p: Bytes, reliable: bool, c: ClientId)
    requires Inv(cfg, w) && ids <= w.clients && c in w.clients && c in w.records
    requires c !in Overflowed(cfg, w, ids, p, reliable)
    ensures w.records[c].token !in TokensOf(w, Overflowed(cfg, w, ids, p, reliable))
  {
    assert GoodClient(cfg, w, c);
    forall d | d in Overflowed(cfg, w, ids, p, reliable) ensures w.records[d].token != w.records[c].token {
      assert GoodClient(cfg, w, d);
    }
  }

  /** A tracked client stays good while its record, its index entries and its
      sockets stay. */
  lemma UntouchedClient(cfg: Config, w: World, w': World, c: ClientId)
    requires GoodClient(cfg, w, c) && c in w.clients && c in w'.clients && c in w'.records
    requires w'.records[c] == w.records[c]
    requires w.records[c].token in w'.tokens && w'.tokens[w.records[c].token] == c
    requires w'.conns == w.conns && w'.clientSockets == w.clientSockets && w'.subs == w.subs
    requires forall s :: s in w.records[c].socks ==> s in w'.ws && w'.ws[s] == w.ws[s]
    ensures GoodClient(cfg, w', c)
  {
    KeepsOrder(w, w', c, w.records[c], w.records[c]);
  }

  lemma OthersKeep(cfg: Config, w: World, ids: set<ClientId>, p: Bytes, reliable: bool, c: ClientId)
    requires Inv(cfg, w) && ids <= w.clients && c !in ids
    ensures GoodClient(cfg, Multicast(cfg, w, ids, p, reliable), c)
  {
    assert GoodClient(cfg, w, c);
    if c in w.clients {
      var w' := Multicast(cfg, w, ids, p, reliable);
      OthersTokenStays(cfg, w, ids, p, reliable, c);
      forall s | s in w.records[c].socks ensures s in w.ws && w'.ws[s] == w.ws[s] {
        OtherSocketsUntouched(cfg, w, ids, p, reliable, c, s);
      }
      UntouchedClient(cfg, w, w', c);
    }
  }

  lemma MulticastKeepsToken(cfg: Config, w: World, ids: set<ClientId>, p: Bytes, reliable: bool, t: Token)
    requires Inv(cfg, w) && ids <= w.clients
    ensures GoodToken(Multicast(cfg, w, ids, p, reliable), t)
  {
    assert GoodToken(w, t);
    if t in w.tokens && w.tokens[t] in Overflowed(cfg, w, ids, p, reliable) {
      assert w.records[w.tokens[t]].token in TokensOf(w, Overflowed(cfg, w, ids, p, reliable));
    }
  }

  lemma MulticastKeepsSock(cfg: Config, w: World, ids: set<ClientId>, p: Bytes, reliable: bool, s: Sock)
    requires Inv(cfg, w) && ids <= w.clients
    ensures GoodSock(Multicast(cfg, w, ids, p, reliable), s)
  {
    assert GoodSock(w, s);
    CurrentIff(cfg, w, s, ids);
    if s in w.pending { assert GoodClient(cfg, w, w.pending[s]); }
    if s in w.subs { assert GoodClient(cfg, w, w.conns[s]); }
  }

  lemma MulticastKeeps(cfg: Config, w: World, ids: set<ClientId>, p: Bytes, reliable: bool)
    requires Inv(cfg, w) && ids <= w.clients
    ensures Inv(cfg, Multicast(cfg, w, ids, p, reliable))
  {
    var w' := Multicast(cfg, w, ids, p, reliable);
    forall c ensures GoodClient(cfg, w', c) {
      if c in ids {
        assert GoodClient(cfg, w, c);
        DeliverKeepsClient(cfg, w, ids, p, reliable, c);
      } else {
        OthersKeep(cfg, w, ids, p, reliable, c);
      }
    }
    forall t ensures GoodToken(w', t) { MulticastKeepsToken(cfg, w, ids, p, reliable, t); }
    forall s ensures GoodSock(w', s) { MulticastKeepsSock(cfg, w, ids, p, reliable, s); }
    forall c ensures GoodName(w', c) { assert GoodName(w, c); }
  }

  lemma BroadcastKeeps(cfg: Config, w: World, p: Bytes, reliable: bool, except: Option<set<ClientId>>)
    requires Inv(cfg, w)
    ensures Inv(cfg, Broadcast(cfg, w, p, reliable, except))
  {
    if w.alive {
      match except
      case None =>
        FastPathRefinesLoop(cfg, w, p, reliable);
        MulticastKeeps(cfg, w, w.clients - {}, p, reliable);
      case Some(ids) =>
        MulticastKeeps(cfg, w, w.clients - ids, p, reliable);
    }
  }

  lemma TokensOfOne(w: World, id: ClientId)
    requires id in w.records
    ensures TokensOf(w, {id}) == {w.records[id].token} && TokensOf(w, {}) == {}
  {
  }

  lemma OverflowOfOne(cfg: Config, w: World, id: ClientId, p: Bytes, reliable: bool)
    requires id in w.records
    ensures Overflowed(cfg, w, {id}, p, reliable) ==
      if Deliver(cfg, w.records[id], p, reliable).alive then {} else {id}
  {
  }

  /** What one client's delivery does to the indexes. */
  lemma DeliveredToOne(cfg: Config, w: World, id: ClientId, p: Bytes, reliable: bool)
    requires id in w.records && id in w.clients
    ensures var r := Deliver(cfg, w.records[id], p, reliable);
      var d := Delivered(cfg, w, {id}, p, reliable);
      && d.records == w.records[id := r]
      && d.clients == (if r.alive then w.clients else w.clients - {id})
      && d.tokens == (if r.alive then w.tokens else w.tokens - {w.records[id].token})
  {
    TokensOfOne(w, id);
    OverflowOfOne(cfg, w, id, p, reliable);
    assert w.tokens - {} == w.tokens;
  }

  lemma BufferForOne(cfg: Config, w: World, id: ClientId, p: Bytes)
    requires id in w.records && w.records[id].socket.None? && w.records[id].alive
    ensures var b := Buffer(w.records[id], p);
      BufferFor(cfg, w, id, p) ==
        if b.bufferBytes > cfg.maxBufferBytes then
          w.(records := w.records[id := Dead(b)], clients := w.clients - {id},
             tokens := w.tokens - {w.records[id].token})
        else w.(records := w.records[id := b])
  {
    var b := Buffer(w.records[id], p);
    assert w.records[id := b][id := Dead(b)] == w.records[id := Dead(b)];
  }

  /** What a send through the handle does, spelled out. */
  function SentToOne(cfg: Config, w: World, id: ClientId, p: Bytes, reliable: bool): World
    requires id in w.records && (w.records[id].socket.Some? ==> w.records[id].socket.value in w.ws)
  {
    var r := w.records[id];
    var r' := Deliver(cfg, r, p, reliable);
    w.(records := w.records[id := r'],
       clients := if r'.alive then w.clients else w.clients - {id},
       tokens := if r'.alive then w.tokens else w.tokens - {r.token},
       ws := if r.socket.None? then w.ws else w.ws[r.socket.value := SendWs(w.ws[r.socket.value], User(p, reliable))])
  }

  lemma SendToOne(cfg: Config, w: World, id: ClientId, p: Bytes, reliable: bool)
    requires w.alive && HasSocket(w, id) && w.records[id].alive
    ensures Send(cfg, w, id, p, reliable) == SentToOne(cfg, w, id, p, reliable)
  {
    var a := Address(w.records[id], p, reliable);
    var b := Buffer(a, p);
    if a.socket.None? && reliable {
      BufferForOne(cfg, w.(records := w.records[id := a]), id, p);
      assert w.records[id := a][id := b] == w.records[id := b];
      assert w.records[id := a][id := Dead(b)] == w.records[id := Dead(b)];
    }
  }

  lemma MulticastSocketsOfOne(cfg: Config, w: World, id: ClientId, p: Bytes, reliable: bool)
    requires HasSocket(w, id)
    ensures Multicast(cfg, w, {id}, p, reliable).ws ==
      if w.records[id].socket.None? then w.ws
      else w.ws[w.records[id].socket.value := SendWs(w.ws[w.records[id].socket.value], User(p, reliable))]
  {
    forall s | s in w.ws ensures IsCurrent(w, s, {id}) <==> w.records[id].socket == Some(s) {
      assert id in {id};
    }
  }

  /** A send through the handle is the loop over that one client. */
  lemma SendIsMulticast(cfg: Config, w: World, id: ClientId, p: Bytes, reliable: bool)
    requires w.alive && HasSocket(w, id) && w.records[id].alive && id in w.clients
    ensures Send(cfg, w, id, p, reliable) == Multicast(cfg, w, {id}, p, reliable)
  {
    DeliveredToOne(cfg, w, id, p, reliable);
    SendToOne(cfg, w, id, p, reliable);
    MulticastSocketsOfOne(cfg, w, id, p, reliable);
  }

  lemma SendKeeps(cfg: Config, w: World, id: ClientId, p: Bytes, reliable: bool)
    requires Inv(cfg, w) && HasSocket(w, id)
    ensures Inv(cfg, Send(cfg, w, id, p, reliable))
  {
    assert GoodClient(cfg, w, id);
    if w.records[id].alive && w.alive {
      SendIsMulticast(cfg, w, id, p, reliable);
      MulticastKeeps(cfg, w, {id}, p, reliable);
    }
  }

  lemma StopKeepsClient(cfg: Config, w: World, c: ClientId)
    requires Inv(cfg, w)
    ensures GoodClient(cfg, StopFinish(w), c)
  {
    assert GoodClient(cfg, w, c);
  }

  lemma StopKeeps(cfg: Config, w: World)
    requires Inv(cfg, w) && Enabled(w, EvStopFinish)
    ensures Inv(cfg, StopFinish(w))
  {
    var w' := StopFinish(w);
    forall c ensures GoodClient(cfg, w', c) { StopKeepsClient(cfg, w, c); }
    forall t ensures GoodToken(w', t) { }
    forall s ensures GoodSock(w', s) { assert GoodSock(w, s); }
    forall c ensures GoodName(w', c) { assert GoodName(w, c); }
  }
}
