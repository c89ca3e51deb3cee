/** A client whose socket dies while it is being authorised
    (src/room/start.ts, src/room/transport/ws.ts): the close finds nobody to tell,
    and the continuation of onAuth admits the client on a dead socket. */
module RoomOrphans {
  import opened Prelude
  import opened RoomSpec
  import opened RoomInvariant
  import opened RoomSteps
  import opened RoomRuns
  import opened RoomVerbs
  import opened RoomWires
  import opened RoomTakeover

  /** The client id is tracked on socket s, which no event will ever close again. */
  predicate Held(w: World, id: ClientId, s: Sock) {
    && id in w.clients && id in w.records
    && w.records[id].alive && w.records[id].socket == Some(s) && w.records[id].pendingDrops == 0
    && !w.records[id].timer && w.records[id].strays == 0
    && id !in w.pending.Values && s !in w.pending
  }

  /** Its onAuth, the only one for the id, is still to come back. */
  predicate Awaited(w: World, id: ClientId, s: Sock) {
    && s in w.pending && w.pending[s] == id && (forall x <- w.pending :: w.pending[x] == id ==> x == s)
    && (id in w.records ==> !w.records[id].alive)
  }

  /** No earlier admission of the id is left. */
  ghost predicate EarlierOver(w: World, id: ClientId) {
    forall k {:trigger w.earlier[k]} :: 0 <= k < |w.earlier| && w.earlier[k].id == id ==> !w.earlier[k].r.alive
  }

  ghost predicate Orphan(w: World, id: ClientId, s: Sock) {
    && s in w.ws && w.ws[s].ready == Closed && id !in w.clientSockets && EarlierOver(w, id)
    && (Awaited(w, id, s) || Held(w, id, s))
  }

  /** A step that ends it: user code, a rejection, or the end of the room. */
  predicate Ends(e: Event, id: ClientId, s: Sock) { e == EvDisconnect(id) || e == EvAuthFail(s) || e.EvStopFinish? }

  /** Another socket, another client. */
  ghost predicate SameOrphan(w: World, w': World, id: ClientId, s: Sock) {
    && s in w.ws && s in w'.ws && SocketMoves(w.ws[s], w'.ws[s])
    && (id in w'.clientSockets ==> id in w.clientSockets)
    && (Held(w, id, s) ==>
          id in w'.clients && id in w'.records
          && w'.records[id].(addressed := w.records[id].addressed) == w.records[id])
    && (forall x <- w'.pending :: w'.pending[x] == id || x == s ==> x in w.pending && w.pending[x] == w'.pending[x])
    && (id in w'.records && w'.records[id].alive ==> id in w.records && w.records[id].alive)
    && (EarlierOver(w, id) ==> EarlierOver(w', id))
  }

  lemma UpgradeOfAnother(w: World, w': World, i: ClientId, x: Sock, id: ClientId, s: Sock)
    requires s in w.ws && Upgraded(w, w', i, x) && i != id
    ensures SameOrphan(w, w', id, s)
  {
    assert id in w.records ==> w'.records[id] == w.records[id];
  }

  lemma OpenOfAnother(w: World, w': World, i: ClientId, x: Sock, id: ClientId, s: Sock)
    requires s in w.ws && x !in w.ws && i != id && w' == OpenStart(w, i, x)
    ensures SameOrphan(w, w', id, s) && (s in w.pending ==> s in w'.pending && w'.pending[s] == w.pending[s])
  {
    OpenUpgrades(w, w', i, x);
    UpgradeOfAnother(w, w', i, x, id, s);
    OpenPending(w, w', i, x);
  }

  lemma OpenPending(w: World, w': World, i: ClientId, x: Sock)
    requires x !in w.ws && w' == OpenStart(w, i, x)
    ensures w'.pending == if i in w.clients then w.pending else w.pending[x := i]
  {
    if i in w.clients { RefusedUpgrade(w, w', i, x, "seat already in use"); }
  }

  lemma ReconnectPending(w: World, w': World, param: Token, x: Sock, token: Token)
    requires x !in w.ws && w' == Reconnect(w, param, x, token)
    ensures w'.pending == w.pending
  {
    var i := Resolve(w, param);
    if Waiting(w, i) { ResumedUpgrade(w, w', i, x, token); } else { RefusedUpgrade(w, w', i, x, "invalid session"); }
  }

  lemma ReconnectOfAnother(w: World, w': World, param: Token, x: Sock, token: Token, id: ClientId, s: Sock)
    requires s in w.ws && x !in w.ws && Resolve(w, param) != id && w' == Reconnect(w, param, x, token)
    ensures SameOrphan(w, w', id, s) && w'.pending == w.pending
  {
    ReconnectUpgrades(w, w', param, x, token);
    UpgradeOfAnother(w, w', Resolve(w, param), x, id, s);
    ReconnectPending(w, w', param, x, token);
  }

  /** A verb of another client, or of one that is not held. */
  lemma VerbSpares(w: World, w': World, i: ClientId, id: ClientId, s: Sock)
    requires VerbMoves(w, w', i) && s in w.ws && (i != id || !Held(w, id, s))
    ensures SameOrphan(w, w', id, s) && w'.pending == w.pending && w'.clientSockets == w.clientSockets
  {
    if i != id && id in w.records { assert w'.records[id] == w.records[id]; }
  }

  /** All that its own handle does to a held client short of disconnect: there is
      no timer, no onDrop, and a window is not opened while it has a socket. */
  lemma HeldVerb(cfg: Config, w: World, w': World, e: Event, id: ClientId, s: Sock)
    requires OfHandle(e) && HandlePossible(w, e) && HasSocket(w, e.id) && w' == HandleStep(cfg, w, e)
    requires e.id == id && Held(w, id, s) && s in w.ws && !e.EvDisconnect?
    ensures SameOrphan(w, w', id, s) && w'.pending == w.pending
  {
    HandleVerb(cfg, w, w', e);
    match e
    case EvAllow(_) => assert w'.records[id] == w.records[id];
    case EvSend(_, p, reliable) =>
      assert w'.records[id] == w.records[id] || w'.records[id] == Address(w.records[id], p, reliable);
  }

  lemma HandleSpares(cfg: Config, w: World, w': World, e: Event, id: ClientId, s: Sock)
    requires OfHandle(e) && HandlePossible(w, e) && HasSocket(w, e.id) && w' == HandleStep(cfg, w, e)
    requires s in w.ws && e != EvDisconnect(id)
    ensures SameOrphan(w, w', id, s) && w'.pending == w.pending
  {
    if e.id == id && Held(w, id, s) {
      HeldVerb(cfg, w, w', e, id, s);
    } else {
      HandleVerb(cfg, w, w', e);
      VerbSpares(w, w', e.id, id, s);
    }
  }

  lemma EarlierSpares(w: World, w': World, k: nat, id: ClientId, s: Sock)
    requires EarlierMoves(w, w', k) && s in w.ws && EarlierOver(w, id)
    ensures SameOrphan(w, w', id, s) && w'.pending == w.pending
  {
    assert w.earlier[k].id == id ==> !w.earlier[k].r.alive;
    forall i | 0 <= i < |w'.earlier| && w'.earlier[i].id == id ensures !w'.earlier[i].r.alive {
      assert w.earlier[i].id == id;
    }
  }

  lemma ForgetSpares(w: World, w': World, x: Sock, id: ClientId, s: Sock)
    requires Forgets(w, w', x) && w'.records == w.records && w'.earlier == w.earlier && s in w.ws && x != s
    ensures SameOrphan(w, w', id, s) && w'.pending == w.pending
  {
  }

  lemma ThenSpares(w: World, w1: World, w': World, id: ClientId, s: Sock)
    requires SameOrphan(w, w1, id, s) && SameOrphan(w1, w', id, s) && (Held(w, id, s) ==> Held(w1, id, s))
    ensures SameOrphan(w, w', id, s)
  {
  }

  lemma CloseAnother(cfg: Config, w: World, w': World, x: Sock, code: int, id: ClientId, s: Sock)
    requires Wired(w) && Grounded(w) && x in w.ws && w.ws[x].ready != Closed && w' == WsClose(cfg, w, x, code)
    requires s in w.ws && w.ws[s].ready == Closed && id !in w.clientSockets
    ensures SameOrphan(w, w', id, s) && w'.pending == w.pending
  {
    var w1 := Forget(w, x);
    ForgetIs(w, w1, x);
    ForgetSpares(w, w1, x, id, s);
    CloseIsHandled(cfg, w, w', x, code);
    if w' != w1 {
      var i := w.conns[x];
      assert i in w1.clients && HasSocket(w1, i);
      CloseVerb(cfg, w1, w', i, code);
      VerbSpares(w1, w', i, id, s);
      ThenSpares(w, w1, w', id, s);
    }
  }

  lemma DeliveredSpares(cfg: Config, w: World, w': World, ids: set<ClientId>, p: Bytes, reliable: bool,
                        id: ClientId, s: Sock)
    requires w' == Delivered(cfg, w, ids, p, reliable) && s in w.ws
    ensures SameOrphan(w, w', id, s) && w'.pending == w.pending
    ensures Held(w, id, s) ==> Held(w', id, s)
  {
    assert id in w.records ==>
      w'.records[id] == w.records[id] || w'.records[id] == Deliver(cfg, w.records[id], p, reliable);
  }

  lemma SentSpares(w: World, w': World, id: ClientId, s: Sock)
    requires s in w.ws && s in w'.ws && SocketMoves(w.ws[s], w'.ws[s]) && w' == w.(ws := w'.ws)
    ensures SameOrphan(w, w', id, s)
  {
  }

  lemma BroadcastSpares(cfg: Config, w: World, w': World, p: Bytes, reliable: bool, except: Option<set<ClientId>>,
                        id: ClientId, s: Sock)
    requires w' == Broadcast(cfg, w, p, reliable, except) && s in w.ws
    ensures SameOrphan(w, w', id, s) && w'.pending == w.pending
  {
    if w.alive {
      var ids := if except.None? then w.clients else w.clients - except.value;
      var w1 := Delivered(cfg, w, ids, p, reliable);
      DeliveredSpares(cfg, w, w1, ids, p, reliable, id, s);
      assert w' == w1.(ws := w'.ws);
      SentSpares(w1, w', id, s);
      ThenSpares(w, w1, w', id, s);
    } else {
      SentSpares(w, w', id, s);
    }
  }

  lemma AdmitSpares(w: World, w': World, x: Sock, token: Token, id: ClientId, s: Sock)
    requires x in w.pending && x in w.ws && w' == AuthOk(w, x, token) && w.pending[x] != id && s in w.ws
    ensures SameOrphan(w, w', id, s) && w'.pending == w.pending - {x}
  {
  }

  lemma AdmitOrphan(w: World, w': World, token: Token, id: ClientId, s: Sock)
    requires Orphan(w, id, s) && Awaited(w, id, s) && w' == AuthOk(w, s, token)
    ensures Orphan(w', id, s) && w'.ws[s] == w.ws[s]
  {
    assert forall x <- w'.pending :: x in w.pending && w'.pending[x] != id;
  }

  lemma SpareIsOrphan(w: World, w': World, id: ClientId, s: Sock)
    requires Orphan(w, id, s) && SameOrphan(w, w', id, s)
    requires Awaited(w, id, s) ==> s in w'.pending && w'.pending[s] == id
    ensures Orphan(w', id, s) && w'.ws[s].wire == w.ws[s].wire
  {
  }

  lemma LocalSpares(cfg: Config, w: World, w': World, e: Event, id: ClientId, s: Sock)
    requires Wired(w) && Grounded(w) && Possible(w, e) && w' == Step(cfg, w, e) && Orphan(w, id, s) && !Ends(e, id, s)
    requires !e.EvOpen? && !e.EvReconnect? && !e.EvAuthOk? && !e.EvAuthFail?
    ensures SameOrphan(w, w', id, s) && w'.pending == w.pending
  {
    if OfHandle(e) {
      assert HasSocket(w, e.id);
      HandleSpares(cfg, w, w', e, id, s);
    } else {
      match e
      case EvClose(x, code) => CloseAnother(cfg, w, w', x, code, id, s);
      case EvBroadcast(p, reliable, except) => BroadcastSpares(cfg, w, w', p, reliable, except, id, s);
      case EvEarlier(k, h) =>
        EarlierVerb(cfg, w, w', k, h);
        EarlierSpares(w, w', k, id, s);
      case _ =>
    }
  }

  lemma AuthSpares(cfg: Config, w: World, w': World, e: Event, id: ClientId, s: Sock)
    requires Wired(w) && Grounded(w) && Possible(w, e) && w' == Step(cfg, w, e) && Orphan(w, id, s)
    requires (e.EvAuthOk? || e.EvAuthFail?) && e.s != s
    ensures SameOrphan(w, w', id, s) && w'.pending == w.pending - {e.s}
  {
    assert w.pending[e.s] in w.pending.Values;
    if e.EvAuthOk? { AdmitSpares(w, w', e.s, e.token, id, s); }
  }

  /** While nothing is done for its id, the orphan stays one. */
  lemma StaysOrphan(cfg: Config, w: World, w': World, e: Event, id: ClientId, s: Sock)
    requires Wired(w) && Grounded(w) && Possible(w, e) && w' == Step(cfg, w, e)
    requires Orphan(w, id, s) && !Upgrades(w, e, id) && !Ends(e, id, s)
    ensures Orphan(w', id, s) && w'.ws[s].wire == w.ws[s].wire
    ensures Held(w, id, s) || (e.EvAuthOk? && e.s == s) ==> Held(w', id, s)
    ensures Awaited(w, id, s) && !(e.EvAuthOk? && e.s == s) ==> Awaited(w', id, s)
  {
    if e.EvAuthOk? && e.s == s && Awaited(w, id, s) {
      AdmitOrphan(w, w', e.token, id, s);
    } else {
      if e.EvOpen? { OpenOfAnother(w, w', e.id, e.s, id, s); }
      else if e.EvReconnect? { ReconnectOfAnother(w, w', e.param, e.s, e.token, id, s); }
      else if e.EvAuthOk? || e.EvAuthFail? { AuthSpares(cfg, w, w', e, id, s); }
      else { LocalSpares(cfg, w, w', e, id, s); }
      SpareIsOrphan(w, w', id, s);
    }
  }

  /** In an orderly room, a socket that dies before its client is admitted leaves
      the client's id to its onAuth alone. */
  lemma DeathOrphans(cfg: Config, es: seq<Event>, w: World, s: Sock, code: int, w1: World)
    requires Reaches(cfg, Init, es, w) && Grounded(w) && s in w.pending && Possible(w, EvClose(s, code))
    requires w1 == Step(cfg, w, EvClose(s, code))
    ensures Orphan(w1, w.pending[s], s) && Awaited(w1, w.pending[s], s) && SameSeats(w, w1)
    ensures w1.ws[s].wire == w.ws[s].wire
  {
    ReachableInv(cfg, es, w);
    assert GoodSock(w, s) && GoodClient(cfg, w, w.pending[s]);
    forall k | 0 <= k < |w.earlier| ensures !w.earlier[k].r.alive { assert GoodEarlier(w, w.earlier[k]); }
    forall x | x in w.pending && w.pending[x] == w.pending[s] ensures x == s { assert GoodSock(w, x); }
  }

  /** The onAuth of socket s comes back with ok. */
  predicate Admits(es: seq<Event>, s: Sock) { exists i :: 0 <= i < |es| && es[i].EvAuthOk? && es[i].s == s }

  lemma AdmitsFirst(es: seq<Event>, s: Sock)
    requires es != []
    ensures Admits(es, s) <==> (es[0].EvAuthOk? && es[0].s == s) || Admits(es[1..], s)
  {
    assert es == [es[0]] + es[1..];
    if Admits(es, s) && !(es[0].EvAuthOk? && es[0].s == s) {
      var i :| 0 <= i < |es| && es[i].EvAuthOk? && es[i].s == s;
      assert es[1..][i - 1] == es[i];
    }
  }

  /** None of the events is for the client's id, from user code, or the room's end. */
  ghost predicate LeftAlone(cfg: Config, w: World, es: seq<Event>, id: ClientId, s: Sock) {
    !Superseded(cfg, w, es, id) && forall i :: 0 <= i < |es| ==> !Ends(es[i], id, s)
  }

  lemma {:induction false} OrphanRuns(cfg: Config, w: World, es: seq<Event>, w': World, id: ClientId, s: Sock)
    requires Wired(w) && AnyRun(cfg, w, es, w') && Orphan(w, id, s) && LeftAlone(cfg, w, es, id, s)
    ensures Orphan(w', id, s) && w'.ws[s].wire == w.ws[s].wire
    ensures Held(w, id, s) || Admits(es, s) ==> Held(w', id, s)
    ensures Awaited(w, id, s) && !Admits(es, s) ==> Awaited(w', id, s)
    decreases |es|
  {
    WiredIsGrounded(w);
    if es != [] {
      var w1 := Step(cfg, w, es[0]);
      StepWires(cfg, w, w1, es[0]);
      StaysOrphan(cfg, w, w1, es[0], id, s);
      AdmitsFirst(es, s);
      OrphanRuns(cfg, w1, es[1..], w', id, s);
    }
  }

  /** A client whose socket dies during its onAuth and that is admitted
      afterwards is tracked on the dead socket: whatever follows, it gets no
      frame, no onDrop, no reconnection window and no onLeave, until user code
      disconnects it, the room stops, or somebody upgrades for its id. */
  lemma AdmittedOnDeadSocket(cfg: Config, es: seq<Event>, w: World, s: Sock, code: int, w1: World,
                             later: seq<Event>, w2: World)
    requires Reaches(cfg, Init, es, w) && Grounded(w) && s in w.pending && Possible(w, EvClose(s, code))
    requires w1 == Step(cfg, w, EvClose(s, code)) && AnyRun(cfg, w1, later, w2)
    requires LeftAlone(cfg, w1, later, w.pending[s], s)
    ensures s in w2.ws && w2.ws[s].ready == Closed && w2.ws[s].wire == w.ws[s].wire
    ensures Held(w2, w.pending[s], s) <==> Admits(later, s)
    ensures !Held(w2, w.pending[s], s) ==> Awaited(w2, w.pending[s], s)
  {
    var id := w.pending[s];
    OrderlyIsAny(cfg, Init, es, w);
    AnyRunWires(cfg, Init, es, w);
    DeathOrphans(cfg, es, w, s, code, w1);
    StepWires(cfg, w, w1, EvClose(s, code));
    OrphanRuns(cfg, w1, later, w2, id, s);
  }
}
