/** What holds of the room in every run, orderly or not: whatever is opened,
    presented, closed or called, and in whatever order (src/room/start.ts,
    src/room/transport/ws.ts). */
module RoomWires {
  import opened Prelude
  import opened RoomSpec
  import opened RoomInvariant
  import opened RoomSteps
  import opened RoomRuns
  import opened RoomVerbs

  /** A tracked client is alive; each admission has left once iff it is dead. */
  predicate GoodSeat(w: World, c: ClientId) {
    && (c in w.clients ==> c in w.records && w.records[c].alive)
    && (c in w.records ==> Counted(w.records[c]) && Windowed(w.records[c]))
    && (c in w.records && w.records[c].socket.Some? ==>
          w.records[c].socket.value in w.ws && w.ws[w.records[c].socket.value].owner == c)
  }

  predicate GoodAdmission(w: World, a: Admission) { HasEarlier(w, a) && Counted(a.r) && Windowed(a.r) }

  predicate GoodConn(w: World, s: Sock) {
    && (s in w.conns ==> s in w.ws && w.ws[s].owner == w.conns[s])
    && (s in w.pending ==> s in w.ws && w.ws[s].owner == w.pending[s])
    && (s in w.subs ==> s in w.ws)
  }

  ghost predicate AllAdmissions(w: World) {
    forall k {:trigger w.earlier[k]} :: 0 <= k < |w.earlier| ==> GoodAdmission(w, w.earlier[k])
  }

  ghost predicate Wired(w: World) {
    && (forall c {:trigger GoodName(w, c)} :: GoodName(w, c))
    && (forall s {:trigger GoodConn(w, s)} :: GoodConn(w, s))
    && (forall c {:trigger GoodSeat(w, c)} :: GoodSeat(w, c))
    && AllAdmissions(w)
  }

  lemma WiredIsGrounded(w: World)
    requires Wired(w)
    ensures Grounded(w)
  {
    forall c | c in w.clients ensures c in w.records { assert GoodSeat(w, c); }
    forall c | c in w.records ensures HasSocket(w, c) { assert GoodSeat(w, c); }
    forall s | s in w.pending ensures s in w.ws { assert GoodConn(w, s); }
    forall k | 0 <= k < |w.earlier| ensures HasEarlier(w, w.earlier[k]) { assert GoodAdmission(w, w.earlier[k]); }
  }

  /** Every admission is alive iff it is tracked: the latest of its client id iff
      the id is in the map, the earlier ones not at all. */
  predicate TrueSeat(w: World, c: ClientId) { c in w.records ==> (w.records[c].alive <==> c in w.clients) }

  ghost predicate TrueSeats(w: World) {
    && (forall c {:trigger TrueSeat(w, c)} :: TrueSeat(w, c))
    && (forall k {:trigger w.earlier[k]} :: 0 <= k < |w.earlier| ==> !w.earlier[k].r.alive)
  }

  // --- steps without an upgrade ---

  /** Connections, mappings and owners stay, no admission comes. */
  ghost predicate SameWires(w: World, w': World) {
    && w'.conns == w.conns && w'.clientSockets == w.clientSockets && w'.ws.Keys == w.ws.Keys && w'.subs <= w.ws.Keys
    && (forall s <- w.ws :: w'.ws[s].owner == w.ws[s].owner)
    && (forall s <- w'.pending :: s in w.pending && w'.pending[s] == w.pending[s])
    && (forall c {:trigger GoodSeat(w', c)} :: GoodSeat(w', c))
    && AllAdmissions(w')
  }

  /** A step by which nobody comes or goes without the map. */
  ghost predicate KeepsSeats(w: World, w': World) { TrueSeats(w) ==> TrueSeats(w') }

  lemma WiresKept(w: World, w': World)
    requires Wired(w) && SameWires(w, w')
    ensures Wired(w')
  {
    forall c ensures GoodName(w', c) { assert GoodName(w, c); }
    forall s ensures GoodConn(w', s) { assert GoodConn(w, s); }
  }

  lemma SubsExist(w: World)
    requires Wired(w)
    ensures w.subs <= w.ws.Keys
  {
    forall s | s in w.subs ensures s in w.ws { assert GoodConn(w, s); }
  }

  /** A verb of a latest admission. */
  lemma VerbWires(w: World, w': World, id: ClientId)
    requires Wired(w) && VerbMoves(w, w', id)
    ensures SameWires(w, w') && KeepsSeats(w, w')
  {
    SubsExist(w);
    forall c ensures GoodSeat(w', c) { assert GoodSeat(w, c) && GoodSeat(w, id); }
    forall k | 0 <= k < |w'.earlier| ensures GoodAdmission(w', w'.earlier[k]) {
      assert GoodAdmission(w, w.earlier[k]);
    }
    if TrueSeats(w) {
      forall c ensures TrueSeat(w', c) { assert TrueSeat(w, c) && TrueSeat(w, id); }
    }
  }

  /** And of an earlier one. */
  lemma EarlierWires(w: World, w': World, k: nat)
    requires Wired(w) && EarlierMoves(w, w', k)
    ensures SameWires(w, w') && KeepsSeats(w, w')
  {
    SubsExist(w);
    forall c ensures GoodSeat(w', c) { assert GoodSeat(w, c); }
    forall i | 0 <= i < |w'.earlier| ensures GoodAdmission(w', w'.earlier[i]) {
      assert GoodAdmission(w, w.earlier[i]);
    }
    if TrueSeats(w) {
      forall c ensures TrueSeat(w', c) { assert TrueSeat(w, c); }
      forall i | 0 <= i < |w'.earlier| ensures !w'.earlier[i].r.alive { assert !w.earlier[i].r.alive; }
    }
  }

  /** Nothing but sockets' states and the room's own flag. */
  lemma SocketsWires(w: World, w': World)
    requires Wired(w) && w' == w.(ws := w'.ws, alive := w'.alive) && w'.ws.Keys == w.ws.Keys
    requires forall s <- w.ws :: w'.ws[s].owner == w.ws[s].owner
    ensures SameWires(w, w') && KeepsSeats(w, w')
  {
    SubsExist(w);
    forall c ensures GoodSeat(w', c) { assert GoodSeat(w, c); }
    forall k | 0 <= k < |w'.earlier| ensures GoodAdmission(w', w'.earlier[k]) {
      assert GoodAdmission(w, w.earlier[k]);
    }
    if TrueSeats(w) {
      forall c ensures TrueSeat(w', c) { assert TrueSeat(w, c); }
    }
  }

  lemma LeaveWires(w: World, w': World, s: Sock)
    requires Wired(w) && w' == Leave(w, s)
    ensures SameWires(w, w') && KeepsSeats(w, w')
  {
    SocketsWires(w, w');
  }

  lemma DeliveredWires(cfg: Config, w: World, w': World, ids: set<ClientId>, p: Bytes, reliable: bool)
    requires Wired(w) && ids <= w.clients && w' == Delivered(cfg, w, ids, p, reliable)
    ensures SameWires(w, w') && KeepsSeats(w, w')
  {
    SubsExist(w);
    forall c ensures GoodSeat(w', c) { assert GoodSeat(w, c); }
    forall k | 0 <= k < |w'.earlier| ensures GoodAdmission(w', w'.earlier[k]) {
      assert GoodAdmission(w, w.earlier[k]);
    }
    if TrueSeats(w) {
      forall c ensures TrueSeat(w', c) { assert TrueSeat(w, c); }
    }
  }

  lemma BroadcastWires(cfg: Config, w: World, w': World, p: Bytes, reliable: bool, except: Option<set<ClientId>>)
    requires Wired(w) && w' == Broadcast(cfg, w, p, reliable, except)
    ensures SameWires(w, w') && KeepsSeats(w, w')
  {
    if w.alive {
      var ids := if except.None? then w.clients else w.clients - except.value;
      var w1 := Delivered(cfg, w, ids, p, reliable);
      DeliveredWires(cfg, w, w1, ids, p, reliable);
      WiresKept(w, w1);
      assert w' == w1.(ws := w'.ws) && w'.ws.Keys == w.ws.Keys;
      SocketsWires(w1, w');
    } else {
      SocketsWires(w, w');
    }
  }

  lemma StopWires(w: World, w': World)
    requires Wired(w) && w' == StopFinish(w)
    ensures SameWires(w, w') && KeepsSeats(w, w')
  {
    SubsExist(w);
    forall c ensures GoodSeat(w', c) { assert GoodSeat(w, c); }
    forall k | 0 <= k < |w'.earlier| ensures GoodAdmission(w', w'.earlier[k]) {
      assert GoodAdmission(w, w.earlier[k]);
    }
    if TrueSeats(w) {
      forall c ensures TrueSeat(w', c) { assert TrueSeat(w, c); }
    }
  }

  lemma LocalWires(cfg: Config, w: World, w': World, e: Event)
    requires Wired(w) && Grounded(w) && Possible(w, e) && w' == Step(cfg, w, e)
    requires !e.EvOpen? && !e.EvReconnect? && !e.EvClose? && !e.EvAuthOk? && !e.EvAuthFail?
    ensures SameWires(w, w') && KeepsSeats(w, w')
  {
    if OfHandle(e) {
      assert HasSocket(w, e.id);
      HandleVerb(cfg, w, w', e);
      VerbWires(w, w', e.id);
    } else {
      match e
      case EvLeave(s) => LeaveWires(w, w', s);
      case EvPeerClosing(s) => SocketsWires(w, w');
      case EvBroadcast(p, reliable, except) => BroadcastWires(cfg, w, w', p, reliable, except);
      case EvStopBegin => SocketsWires(w, w');
      case EvStopFinish => StopWires(w, w');
      case EvEarlier(k, h) =>
        EarlierVerb(cfg, w, w', k, h);
        EarlierWires(w, w', k);
    }
  }

  // --- admissions ---

  /** onAuth comes back with ok for an id that is tracked by then. */
  predicate Readmits(w: World, e: Event) { e.EvAuthOk? && e.s in w.pending && w.pending[e.s] in w.clients }

  lemma AuthFailWires(w: World, w': World, s: Sock)
    requires Wired(w) && s in w.pending && s in w.ws && w' == AuthFail(w, s)
    ensures SameWires(w, w') && KeepsSeats(w, w')
  {
    var w1 := w.(pending := w.pending - {s});
    forall c ensures GoodSeat(w1, c) { assert GoodSeat(w, c); }
    forall k | 0 <= k < |w1.earlier| ensures GoodAdmission(w1, w1.earlier[k]) {
      assert GoodAdmission(w, w.earlier[k]);
    }
    SubsExist(w);
    WiresKept(w, w1);
    if TrueSeats(w) {
      forall c ensures TrueSeat(w1, c) { assert TrueSeat(w, c); }
    }
    SocketsWires(w1, w');
  }

  lemma AuthOkWires(w: World, w': World, s: Sock, token: Token)
    requires Wired(w) && s in w.pending && s in w.ws && w' == AuthOk(w, s, token)
    ensures SameWires(w, w')
  {
    SubsExist(w);
    assert GoodConn(w, s);
    forall c ensures GoodSeat(w', c) { assert GoodSeat(w, c); }
    forall k | 0 <= k < |w'.earlier| ensures GoodAdmission(w', w'.earlier[k]) {
      if k < |w.earlier| { assert GoodAdmission(w, w.earlier[k]); } else { assert GoodSeat(w, w.pending[s]); }
    }
  }

  /** An admission keeps every seat true iff its client id is not tracked yet. */
  lemma AdmissionIsTrueIff(w: World, w': World, s: Sock, token: Token)
    requires Wired(w) && TrueSeats(w) && s in w.pending && s in w.ws && w' == AuthOk(w, s, token)
    ensures TrueSeats(w') <==> w.pending[s] !in w.clients
  {
    var id := w.pending[s];
    assert GoodSeat(w, id) && TrueSeat(w, id);
    if id in w.clients {
      assert w'.earlier[|w.earlier|].r.alive;
    } else {
      forall c ensures TrueSeat(w', c) { assert TrueSeat(w, c); }
      forall k | 0 <= k < |w'.earlier| ensures !w'.earlier[k].r.alive {
        if k < |w.earlier| { assert !w.earlier[k].r.alive; }
      }
    }
  }

  // --- upgrades ---

  /** What the client is to the room: tracked or not, its record, its token. */
  predicate SameSeats(w: World, w': World) {
    w'.clients == w.clients && w'.records == w.records && w'.tokens == w.tokens && w'.earlier == w.earlier
  }

  /** Telling a fresh socket off and closing it. */
  lemma RefusedSocket(w: World, s: Sock, id: ClientId, error: string)
    requires s in w.ws && w.ws[s] == Ws(id, Open, [], [])
    ensures CloseSocket(SendTo(w, s, AuthError(error)), s) ==
      w.(ws := w.ws[s := Ws(id, Closing, [AuthError(error)], [])])
  {
    assert [] + [AuthError(error)] == [AuthError(error)];
    assert SendTo(w, s, AuthError(error)).ws[s] == Ws(id, Open, [AuthError(error)], []);
  }

  /** A refusal leaves clients alone, adds a closing socket, maps the client id
      to it and strips the socket that was mapped. */
  lemma RefusedUpgrade(w: World, w': World, id: ClientId, s: Sock, error: string)
    requires s !in w.ws && w' == Refuse(w, id, s, error)
    ensures SameSeats(w, w') && w'.alive == w.alive && w'.pending == w.pending && w'.stopped == w.stopped
    ensures w'.earlier == w.earlier
    ensures w'.ws == w.ws[s := Ws(id, Closing, [AuthError(error)], [])]
    ensures w'.clientSockets == w.clientSockets[id := s]
    ensures w'.conns == (if id in w.clientSockets then w.conns - {w.clientSockets[id]} else w.conns)[s := id]
    ensures w'.subs ==
      if id in w.clientSockets && w.clientSockets[id] in w.conns then w.subs - {w.clientSockets[id]} else w.subs
  {
    var w1 := CompleteUpgrade(w, id, s);
    RefusedSocket(w1, s, id, error);
    assert w1.ws == w.ws[s := Ws(id, Open, [], [])];
  }

  /** Resuming a client makes the socket its current one, and touches no other record. */
  lemma ResumedUpgrade(w: World, w': World, id: ClientId, s: Sock, token: Token)
    requires s !in w.ws && Waiting(w, id) && w' == Resume(CompleteUpgrade(w, id, s), id, s, token)
    ensures w'.clients == w.clients && w'.pending == w.pending && w'.ws.Keys == w.ws.Keys + {s}
    ensures w'.earlier == w.earlier
    ensures w'.ws[s].owner == id && forall x <- w.ws :: w'.ws[x] == w.ws[x]
    ensures w'.records ==
      w.records[id := w.records[id].(timer := false, socket := Some(s), token := token,
                                     buffer := [], bufferBytes := 0, socks := w.records[id].socks + [s])]
    ensures w'.clientSockets == w.clientSockets[id := s]
    ensures w'.conns == (if id in w.clientSockets then w.conns - {w.clientSockets[id]} else w.conns)[s := id]
    ensures w'.subs == {s} +
      if id in w.clientSockets && w.clientSockets[id] in w.conns then w.subs - {w.clientSockets[id]} else w.subs
  {
  }

  /** At most the client is put on the new socket, and its timer cancelled. */
  predicate RecordUpgraded(r: Tracked, r': Tracked, s: Sock) {
    && r'.alive == r.alive && r'.leaves == r.leaves && r'.disconnects == r.disconnects
    && (r'.socket == r.socket || r'.socket == Some(s)) && (r'.timer ==> r.timer && r'.socket == r.socket)
  }

  /** A completed upgrade of a fresh socket, whatever the room makes of it. */
  ghost predicate Upgraded(w: World, w': World, id: ClientId, s: Sock) {
    && s !in w.ws && w'.ws.Keys == w.ws.Keys + {s} && w'.ws[s].owner == id
    && (forall x <- w.ws :: w'.ws[x] == w.ws[x])
    && w'.clientSockets == w.clientSockets[id := s]
    && w'.conns == (if id in w.clientSockets then w.conns - {w.clientSockets[id]} else w.conns)[s := id]
    && w'.subs <= w.subs + {s} && w'.earlier == w.earlier
    && (forall x <- w'.pending :: (x in w.pending && w'.pending[x] == w.pending[x]) || (x == s && w'.pending[x] == id))
    && w'.clients == w.clients && w'.records.Keys == w.records.Keys
    && (forall c <- w.records :: c != id ==> w'.records[c] == w.records[c])
    && (id in w.records ==> RecordUpgraded(w.records[id], w'.records[id], s))
  }

  lemma RefusalUpgrades(w: World, w': World, id: ClientId, s: Sock, error: string)
    requires s !in w.ws && w' == Refuse(w, id, s, error)
    ensures Upgraded(w, w', id, s)
  {
    RefusedUpgrade(w, w', id, s, error);
  }

  lemma CompletedUpgrade(w: World, w': World, id: ClientId, s: Sock)
    requires s !in w.ws && w' == CompleteUpgrade(w, id, s)
    ensures SameSeats(w, w') && w'.pending == w.pending && w'.ws == w.ws[s := Ws(id, Open, [], [])]
    ensures w'.earlier == w.earlier && w'.subs <= w.subs
    ensures w'.clientSockets == w.clientSockets[id := s]
    ensures w'.conns == (if id in w.clientSockets then w.conns - {w.clientSockets[id]} else w.conns)[s := id]
  {
  }

  lemma AuthUpgrades(w: World, w': World, id: ClientId, s: Sock)
    requires s !in w.ws && w' == CompleteUpgrade(w, id, s).(pending := w.pending[s := id])
    ensures Upgraded(w, w', id, s)
  {
    CompletedUpgrade(w, CompleteUpgrade(w, id, s), id, s);
  }

  lemma ResumeUpgrades(w: World, w': World, id: ClientId, s: Sock, token: Token)
    requires s !in w.ws && Waiting(w, id) && w' == Resume(CompleteUpgrade(w, id, s), id, s, token)
    ensures Upgraded(w, w', id, s)
  {
    ResumedUpgrade(w, w', id, s, token);
  }

  lemma OpenUpgrades(w: World, w': World, id: ClientId, s: Sock)
    requires s !in w.ws && w' == OpenStart(w, id, s)
    ensures Upgraded(w, w', id, s)
  {
    if id in w.clients { RefusalUpgrades(w, w', id, s, "seat already in use"); }
    else { AuthUpgrades(w, w', id, s); }
  }

  lemma ReconnectUpgrades(w: World, w': World, param: Token, s: Sock, token: Token)
    requires s !in w.ws && w' == Reconnect(w, param, s, token)
    ensures Upgraded(w, w', Resolve(w, param), s)
  {
    var id := Resolve(w, param);
    if Waiting(w, id) { ResumeUpgrades(w, w', id, s, token); }
    else { RefusalUpgrades(w, w', id, s, "invalid session"); }
  }

  lemma UpgradeWires(w: World, w': World, id: ClientId, s: Sock)
    requires Wired(w) && Upgraded(w, w', id, s)
    ensures Wired(w') && KeepsSeats(w, w')
  {
    forall c ensures GoodName(w', c) {
      assert GoodName(w, c) && GoodName(w, id);
      if c in w.clientSockets { assert GoodConn(w, w.clientSockets[c]); }
    }
    forall x ensures GoodConn(w', x) { assert GoodConn(w, x); }
    forall c ensures GoodSeat(w', c) { assert GoodSeat(w, c); }
    forall k | 0 <= k < |w'.earlier| ensures GoodAdmission(w', w'.earlier[k]) {
      assert GoodAdmission(w, w.earlier[k]);
    }
    if TrueSeats(w) {
      forall c ensures TrueSeat(w', c) { assert TrueSeat(w, c); }
    }
  }

  // --- closes ---

  /** Socket s is the one its client id is mapped to. */
  predicate Mapped(w: World, id: ClientId, s: Sock) {
    id in w.clientSockets && w.clientSockets[id] == s
  }

  /** A close touches no mapping but its own. */
  ghost predicate CloseMoves(w: World, w': World, s: Sock) {
    && w'.ws.Keys == w.ws.Keys && (forall x <- w.ws :: w'.ws[x].owner == w.ws[x].owner)
    && (forall id, x :: x != s ==> (Mapped(w', id, x) <==> Mapped(w, id, x)))
  }

  lemma ForgetWires(w: World, w': World, s: Sock)
    requires Wired(w) && Forgets(w, w', s) && w'.records == w.records && w'.earlier == w.earlier
    ensures Wired(w') && KeepsSeats(w, w') && CloseMoves(w, w', s)
  {
    assert GoodConn(w, s);
    forall c ensures GoodName(w', c) { assert GoodName(w, c); }
    forall x ensures GoodConn(w', x) { assert GoodConn(w, x); }
    forall c ensures GoodSeat(w', c) { assert GoodSeat(w, c); }
    forall k | 0 <= k < |w'.earlier| ensures GoodAdmission(w', w'.earlier[k]) {
      assert GoodAdmission(w, w.earlier[k]);
    }
    if TrueSeats(w) {
      forall c ensures TrueSeat(w', c) { assert TrueSeat(w, c); }
    }
  }

  /** A close runs the room's handler exactly when the socket is the mapped one. */
  lemma CloseIsHandled(cfg: Config, w: World, w': World, s: Sock, code: int)
    requires Wired(w) && Grounded(w) && s in w.ws && w' == WsClose(cfg, w, s, code)
    ensures Wired(Forget(w, s)) && Grounded(Forget(w, s)) && KeepsSeats(w, Forget(w, s))
    ensures CloseMoves(w, Forget(w, s), s)
    ensures w' == if s in w.conns && Mapped(w, w.conns[s], s) then HandleClose(cfg, Forget(w, s), w.conns[s], code)
      else Forget(w, s)
  {
    ForgetIs(w, Forget(w, s), s);
    ForgetWires(w, Forget(w, s), s);
    WiredIsGrounded(Forget(w, s));
  }

  lemma HandleCloseWires(cfg: Config, w: World, w': World, id: ClientId, code: int)
    requires Wired(w) && (id in w.clients ==> HasSocket(w, id)) && w' == HandleClose(cfg, w, id, code)
    ensures Wired(w') && SameWires(w, w') && KeepsSeats(w, w')
  {
    if id in w.clients {
      CloseVerb(cfg, w, w', id, code);
      VerbWires(w, w', id);
    } else {
      SocketsWires(w, w');
    }
    WiresKept(w, w');
  }

  lemma CloseWires(cfg: Config, w: World, w': World, s: Sock, code: int)
    requires Wired(w) && Grounded(w) && s in w.ws && w' == WsClose(cfg, w, s, code)
    ensures Wired(w') && KeepsSeats(w, w') && CloseMoves(w, w', s)
  {
    CloseIsHandled(cfg, w, w', s, code);
    if w' != Forget(w, s) {
      var id := w.conns[s];
      assert id in w.clients ==> HasSocket(Forget(w, s), id);
      HandleCloseWires(cfg, Forget(w, s), w', id, code);
    }
  }

  // --- runs ---

  lemma StepWires(cfg: Config, w: World, w': World, e: Event)
    requires Wired(w) && Grounded(w) && Possible(w, e) && w' == Step(cfg, w, e)
    ensures Wired(w') && (!e.EvAuthOk? ==> KeepsSeats(w, w'))
  {
    match e
    case EvClose(s, code) => CloseWires(cfg, w, w', s, code);
    case EvOpen(id, s) =>
      OpenUpgrades(w, w', id, s);
      UpgradeWires(w, w', id, s);
    case EvReconnect(param, s, token) =>
      ReconnectUpgrades(w, w', param, s, token);
      UpgradeWires(w, w', Resolve(w, param), s);
    case EvAuthOk(s, token) =>
      AuthOkWires(w, w', s, token);
      WiresKept(w, w');
    case EvAuthFail(s) =>
      AuthFailWires(w, w', s);
      WiresKept(w, w');
    case _ =>
      LocalWires(cfg, w, w', e);
      WiresKept(w, w');
  }

  ghost predicate AnyRun(cfg: Config, w: World, es: seq<Event>, w': World)
    decreases |es|
  {
    if es == [] then w == w'
    else Grounded(w) && Possible(w, es[0]) && AnyRun(cfg, Step(cfg, w, es[0]), es[1..], w')
  }

  lemma {:induction false} AnyRunWires(cfg: Config, w: World, es: seq<Event>, w': World)
    requires Wired(w) && AnyRun(cfg, w, es, w')
    ensures Wired(w') && Grounded(w')
    decreases |es|
  {
    WiredIsGrounded(w);
    if es != [] {
      StepWires(cfg, w, Step(cfg, w, es[0]), es[0]);
      AnyRunWires(cfg, Step(cfg, w, es[0]), es[1..], w');
    }
  }

  lemma {:induction false} OrderlyIsAny(cfg: Config, w: World, es: seq<Event>, w': World)
    requires Reaches(cfg, w, es, w')
    ensures AnyRun(cfg, w, es, w')
    decreases |es|
  {
    if es != [] { OrderlyIsAny(cfg, Step(cfg, w, es[0]), es[1..], w'); }
  }

}
