/** Runs of the room engine: any interleaving of opens, reconnects, drops,
    timers, sends, broadcasts, evictions and a stop. */
module RoomRuns {
  import opened Prelude
  import opened RoomSpec
  import opened RoomInvariant
  import opened RoomSteps
  import opened RoomBroadcast

  lemma PendingKeeps(cfg: Config, w: World, e: Event)
    requires Inv(cfg, w) && Grounded(w) && Enabled(w, e)
    requires e.EvOpen? || e.EvAuthOk? || e.EvAuthFail? || e.EvReconnect?
    ensures Inv(cfg, Step(cfg, w, e))
  {
    match e
    case EvOpen(id, s) => OpenKeeps(cfg, w, id, s);
    case EvAuthOk(s, token) => AuthOkKeeps(cfg, w, s, token);
    case EvAuthFail(s) => AuthFailKeeps(cfg, w, s);
    case EvReconnect(tok, s, token) => ReconnectKeeps(cfg, w, tok, s, token);
  }

  lemma ClosingKeeps(cfg: Config, w: World, e: Event)
    requires Inv(cfg, w) && Grounded(w) && Enabled(w, e)
    requires e.EvLeave? || e.EvPeerClosing? || e.EvClose? || e.EvDropDone? || e.EvDropThrew?
    ensures Inv(cfg, Step(cfg, w, e))
  {
    match e
    case EvLeave(s) => LeaveKeeps(cfg, w, s);
    case EvPeerClosing(s) => CloseSocketKeeps(cfg, w, s);
    case EvClose(s, code) => WsCloseKeeps(cfg, w, s, code);
    case EvDropDone(id) => assert HasSocket(w, id); DropDoneKeeps(cfg, w, id);
    case EvDropThrew(id) =>
      assert GoodClient(cfg, w, id);
      RecordKeeps(cfg, w, id, w.records[id].(pendingDrops := w.records[id].pendingDrops - 1, dropThrew := true));
  }

  lemma VerbKeeps(cfg: Config, w: World, e: Event)
    requires Inv(cfg, w) && Grounded(w) && Enabled(w, e)
    requires e.EvAllow? || e.EvTimer? || e.EvDisconnect? || e.EvSend? || e.EvEarlier? || e.EvBroadcast?
    ensures Inv(cfg, Step(cfg, w, e))
  {
    match e
    case EvAllow(id) =>
      assert GoodClient(cfg, w, id);
      if w.records[id].alive && w.records[id].socket.None? {
        RecordKeeps(cfg, w, id, w.records[id].(timer := true));
      }
    case EvTimer(id) => assert HasSocket(w, id); TimerKeeps(cfg, w, id);
    case EvDisconnect(id) => assert HasSocket(w, id); EvictKeeps(cfg, w, id);
    case EvSend(id, p, reliable) => assert HasSocket(w, id); SendKeeps(cfg, w, id, p, reliable);
    case EvEarlier(k, h) =>
      var w' := Step(cfg, w, e);
      assert GoodEarlier(w, w.earlier[k]);
      OverIsInert(cfg, w, w', k, h);
      EarlierKeeps(cfg, w, w', k);
    case EvBroadcast(p, reliable, except) => BroadcastKeeps(cfg, w, p, reliable, except);
  }

  lemma StopBeginKeeps(cfg: Config, w: World)
    requires Inv(cfg, w)
    ensures Inv(cfg, w.(alive := false))
  {
    var w' := w.(alive := false);
    forall c ensures GoodClient(cfg, w', c) { assert GoodClient(cfg, w, c); }
    forall t ensures GoodToken(w', t) { assert GoodToken(w, t); }
    forall s ensures GoodSock(w', s) { assert GoodSock(w, s); }
    forall c ensures GoodName(w', c) { assert GoodName(w, c); }
  }

  /** Every enabled step keeps the invariant. */
  lemma StepKeeps(cfg: Config, w: World, e: Event)
    requires Inv(cfg, w) && Grounded(w) && Enabled(w, e)
    ensures Inv(cfg, Step(cfg, w, e))
  {
    if e.EvOpen? || e.EvAuthOk? || e.EvAuthFail? || e.EvReconnect? { PendingKeeps(cfg, w, e); }
    else if e.EvLeave? || e.EvPeerClosing? || e.EvClose? || e.EvDropDone? || e.EvDropThrew? { ClosingKeeps(cfg, w, e); }
    else if e.EvStopBegin? { StopBeginKeeps(cfg, w); }
    else if e.EvStopFinish? { StopKeeps(cfg, w); }
    else { VerbKeeps(cfg, w, e); }
  }

  /** `es` is a run from w to w'. (Every state of a run from Init is grounded:
      InvIsGrounded.) */
  ghost predicate Reaches(cfg: Config, w: World, es: seq<Event>, w': World)
    decreases |es|
  {
    if es == [] then w == w'
    else Grounded(w) && Enabled(w, es[0]) && Reaches(cfg, Step(cfg, w, es[0]), es[1..], w')
  }

  lemma {:induction false} RunKeeps(cfg: Config, w: World, es: seq<Event>, w': World)
    requires Inv(cfg, w) && Reaches(cfg, w, es, w')
    ensures Inv(cfg, w')
    decreases |es|
  {
    if es != [] {
      StepKeeps(cfg, w, es[0]);
      RunKeeps(cfg, Step(cfg, w, es[0]), es[1..], w');
    }
  }

  lemma ReachableInv(cfg: Config, es: seq<Event>, w: World)
    requires Reaches(cfg, Init, es, w)
    ensures Inv(cfg, w)
  {
    RunKeeps(cfg, Init, es, w);
  }

  // --- the promises, over all runs ---

  /** Reliable FIFO across any number of drops: what was handed to a tracked
      client's sockets, one after the other, followed by its buffer, is exactly
      what was addressed to it since it joined; nothing is handed to a socket
      that already lost something, and an open socket has lost nothing. */
  lemma ReliableFifo(cfg: Config, es: seq<Event>, w: World, c: ClientId)
    requires Reaches(cfg, Init, es, w) && c in w.clients
    ensures c in w.records && forall s :: s in w.records[c].socks ==> s in w.ws
    ensures HandedAll(w.records[c].socks, w.ws) + w.records[c].buffer == w.records[c].addressed
    ensures w.records[c].socket.Some? ==> w.records[c].buffer == []
    ensures forall s :: s in w.records[c].socks && w.ws[s].ready == Open ==> w.ws[s].lost == []
  {
    ReachableInv(cfg, es, w);
    assert GoodClient(cfg, w, c);
    forall s | s in w.records[c].socks ensures GoodSock(w, s) { }
  }

  /** The session index maps t to c iff c is tracked with current token t. */
  lemma SessionIndexExact(cfg: Config, es: seq<Event>, w: World, t: Token, c: ClientId)
    requires Reaches(cfg, Init, es, w)
    ensures (t in w.tokens && w.tokens[t] == c) <==> (c in w.clients && c in w.records && w.records[c].token == t)
  {
    ReachableInv(cfg, es, w);
    assert GoodClient(cfg, w, c) && GoodToken(w, t);
  }

  /** The buffer is accounted for and bounded; connected clients have none, and
      a reconnection window is only open for a tracked, disconnected client. */
  lemma BufferAccounted(cfg: Config, es: seq<Event>, w: World, c: ClientId)
    requires Reaches(cfg, Init, es, w) && c in w.records
    ensures var r := w.records[c];
      && r.bufferBytes == Sum(r.buffer) <= cfg.maxBufferBytes
      && (r.socket.Some? || c !in w.clients ==> r.buffer == [])
      && (r.timer ==> c in w.clients && r.socket.None?)
  {
    ReachableInv(cfg, es, w);
    assert GoodClient(cfg, w, c);
  }

  /** An admitted client is alive iff it is tracked, and its onLeave and its
      client-disconnected have fired exactly once iff it no longer is. */
  lemma OneJoinerOneLeaver(cfg: Config, es: seq<Event>, w: World, c: ClientId)
    requires Reaches(cfg, Init, es, w) && c in w.records
    ensures w.records[c].alive <==> c in w.clients
    ensures w.records[c].leaves == w.records[c].disconnects == if c in w.clients then 0 else 1
    ensures w.stopped ==> c !in w.clients
  {
    ReachableInv(cfg, es, w);
    assert GoodClient(cfg, w, c);
  }

  /** A connected client survives every reconnection timer and every late
      onDrop continuation, its own included. */
  lemma ConnectedSurvives(cfg: Config, es: seq<Event>, w: World, e: Event, c: ClientId)
    requires Reaches(cfg, Init, es, w) && Grounded(w) && Enabled(w, e)
    requires e.EvTimer? || e.EvDropDone? || e.EvDropThrew?
    requires c in w.clients && w.records[c].socket.Some?
    ensures var w' := Step(cfg, w, e);
      c in w'.clients && c in w'.records && w'.records[c].socket == w.records[c].socket && w'.ws == w.ws
  {
    ReachableInv(cfg, es, w);
    assert GoodClient(cfg, w, c);
    assert GoodClient(cfg, w, e.id);
    if e.EvTimer? { assert e.id != c; }
    if e.EvDropDone? && e.id == c { assert Step(cfg, w, e).clients == w.clients; }
  }

  /** In every reachable state the two broadcast paths agree. */
  lemma BroadcastPathsAgree(cfg: Config, es: seq<Event>, w: World, p: Bytes, reliable: bool)
    requires Reaches(cfg, Init, es, w)
    ensures BroadcastFast(cfg, w, p, reliable) == BroadcastLoop(cfg, w, p, reliable, {})
  {
    ReachableInv(cfg, es, w);
    FastPathRefinesLoop(cfg, w, p, reliable);
  }

  /** A disconnected client without a reconnection window and without an onDrop
      still running has had an onDrop that threw. */
  lemma HeldSeatMeansThrew(cfg: Config, es: seq<Event>, w: World, c: ClientId)
    requires Reaches(cfg, Init, es, w) && c in w.clients && c in w.records
    requires w.records[c].socket.None? && !w.records[c].timer && w.records[c].pendingDrops == 0
    ensures w.records[c].dropThrew
  {
    ReachableInv(cfg, es, w);
    assert GoodClient(cfg, w, c);
  }

  /** When the last pending onDrop settles without a window having been opened,
      the seat is given up iff onDrop did not throw. */
  lemma SeatGivenUpIffOnDropReturned(cfg: Config, es: seq<Event>, w: World, c: ClientId, e: Event)
    requires Reaches(cfg, Init, es, w) && Grounded(w) && c in w.clients
    requires w.records[c].socket.None? && !w.records[c].timer && w.records[c].pendingDrops == 1
    requires e == EvDropDone(c) || e == EvDropThrew(c)
    ensures c !in Step(cfg, w, e).clients <==> e == EvDropDone(c)
  {
    ReachableInv(cfg, es, w);
    assert GoodClient(cfg, w, c);
  }
}
