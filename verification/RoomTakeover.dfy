/** Upgrades that are refused: the transport has put the new socket in the old
    one's place before the room says no (src/room/transport/ws.ts,
    src/room/start.ts). What that does to the session that was there. */
module RoomTakeover {
  import opened Prelude
  import opened RoomSpec
  import opened RoomInvariant
  import opened RoomSteps
  import opened RoomBroadcast
  import opened RoomRuns
  import opened RoomVerbs
  import opened RoomWires

  // --- one refused upgrade ---

  /** The upgrade is for the client id and the room will say no. */
  predicate Refuses(w: World, e: Event, id: ClientId) {
    match e
    case EvOpen(i, _) => i == id && id in w.clients
    case EvReconnect(param, _, _) => Resolve(w, param) == id && !Waiting(w, id)
    case _ => false
  }

  lemma ResolvedResumes(w: World, w': World, param: Token, s: Sock, token: Token, c: ClientId)
    requires s !in w.ws && HasSocket(w, c) && c in w.clients && w' == Reconnect(w, param, s, token)
    ensures (c in w'.clients && c in w'.records && w'.records[c].socket == Some(s)) <==>
      Waiting(w, c) && Resolve(w, param) == c
  {
    var id := Resolve(w, param);
    if Waiting(w, id) { ResumedUpgrade(w, w', id, s, token); }
    else { RefusedUpgrade(w, w', id, s, "invalid session"); }
  }

  /** A parameter resumes exactly the waiting client whose token it is, or whose
      id it is, unless it is another waiting client's token. */
  lemma ParameterResumesIff(cfg: Config, es: seq<Event>, w: World, w': World, param: Token, s: Sock, token: Token,
                            c: ClientId)
    requires Reaches(cfg, Init, es, w) && s !in w.ws && c in w.clients && c in w.records
    requires w' == Reconnect(w, param, s, token)
    ensures (c in w'.clients && c in w'.records && w'.records[c].socket == Some(s)) <==>
      Waiting(w, c) && (w.records[c].token == param || (param == c && !ValidSession(w, param)))
  {
    ReachableInv(cfg, es, w);
    assert GoodClient(cfg, w, c);
    SessionIndexExact(cfg, es, w, param, c);
    ResolvedResumes(w, w', param, s, token, c);
  }

  // --- which upgrade takes a connected client's socket away ---

  lemma StrippedIff(w: World, w': World, id: ClientId, s: Sock, c: ClientId, o: Sock)
    requires s !in w.ws && CurrentSocket(w, c, o) && GoodName(w, id)
    requires w'.clientSockets == w.clientSockets[id := s]
    requires w'.conns == (if id in w.clientSockets then w.conns - {w.clientSockets[id]} else w.conns)[s := id]
    requires w'.subs - {s} ==
      (if id in w.clientSockets && w.clientSockets[id] in w.conns then w.subs - {w.clientSockets[id]} else w.subs) - {s}
    requires o in w'.ws && w'.ws[o] == w.ws[o]
    ensures CurrentSocket(w', c, o) <==> id != c
  {
    assert o in w'.subs <==> o in w'.subs - {s};
    if id in w.clientSockets && id != c { assert w.clientSockets[id] != o; }
  }

  lemma RefusalStrips(w: World, w': World, id: ClientId, s: Sock, error: string, c: ClientId, o: Sock)
    requires s !in w.ws && CurrentSocket(w, c, o) && GoodName(w, id) && w' == Refuse(w, id, s, error)
    ensures CurrentSocket(w', c, o) <==> id != c
  {
    RefusedUpgrade(w, w', id, s, error);
    StrippedIff(w, w', id, s, c, o);
  }

  lemma AuthStrips(w: World, w': World, id: ClientId, s: Sock, c: ClientId, o: Sock)
    requires s !in w.ws && CurrentSocket(w, c, o) && GoodName(w, id) && id !in w.clients && w' == OpenStart(w, id, s)
    ensures CurrentSocket(w', c, o) <==> id != c
  {
    StrippedIff(w, w', id, s, c, o);
  }

  lemma ResumeStrips(w: World, w': World, id: ClientId, s: Sock, token: Token, c: ClientId, o: Sock)
    requires s !in w.ws && CurrentSocket(w, c, o) && GoodName(w, id) && Waiting(w, id)
    requires w' == Resume(CompleteUpgrade(w, id, s), id, s, token)
    ensures CurrentSocket(w', c, o) <==> id != c
  {
    ResumedUpgrade(w, w', id, s, token);
    StrippedIff(w, w', id, s, c, o);
  }

  /** In an orderly run, an upgrade takes a connected client's socket out of its
      place and its subscription away exactly when it is for that client's id: an
      open with that id, or a session parameter that is the id itself and no
      waiting client's token. */
  lemma TakenOverIff(cfg: Config, es: seq<Event>, w: World, w': World, e: Event, c: ClientId)
    requires Reaches(cfg, Init, es, w) && Grounded(w) && Possible(w, e) && (e.EvOpen? || e.EvReconnect?)
    requires w' == Step(cfg, w, e) && Connected(w, c)
    ensures CurrentSocket(w, c, w.records[c].socket.value)
    ensures CurrentSocket(w', c, w.records[c].socket.value) <==>
      !(if e.EvOpen? then e.id == c else e.param == c && !ValidSession(w, e.param))
    ensures Upgrades(w, e, c) <==> if e.EvOpen? then e.id == c else e.param == c && !ValidSession(w, e.param)
  {
    ReachableInv(cfg, es, w);
    assert GoodClient(cfg, w, c);
    var o := w.records[c].socket.value;
    var id := if e.EvOpen? then e.id else Resolve(w, e.param);
    assert GoodName(w, id);
    if e.EvOpen? && id !in w.clients { AuthStrips(w, w', id, e.s, c, o); }
    else if e.EvOpen? { RefusalStrips(w, w', id, e.s, "seat already in use", c, o); }
    else if Waiting(w, id) { ResumeStrips(w, w', id, e.s, e.token, c, o); }
    else { RefusalStrips(w, w', id, e.s, "invalid session", c, o); }
  }

  // --- the close of a refused socket ---

  /** How a tracked client loses its socket, or its seat. */
  predicate SeatLost(cfg: Config, w: World, w': World, id: ClientId, code: int) {
    && id in w.records && id in w'.records
    && if code == CONSENTED || !cfg.hasOnDrop then
         id !in w'.clients && !w'.records[id].alive && w'.records[id].leaves == 1
       else
         && w'.clients == w.clients
         && w'.records ==
           w.records[id := w.records[id].(socket := None, pendingDrops := w.records[id].pendingDrops + 1)]
  }

  lemma EvictCosts(w: World, w': World, id: ClientId)
    requires id in w.clients && HasSocket(w, id) && w.records[id].alive && Counted(w.records[id]) && w' == Evict(w, id)
    ensures id in w'.records && id !in w'.clients && !w'.records[id].alive && w'.records[id].leaves == 1
  {
    assert w'.records == w.records[id := Dead(w.records[id])];
    assert w'.clients == w.clients - {id};
  }

  lemma HandleCloseCosts(cfg: Config, w: World, w': World, id: ClientId, code: int)
    requires id in w.clients && HasSocket(w, id) && w.records[id].alive && Counted(w.records[id])
    requires w' == HandleClose(cfg, w, id, code)
    ensures SeatLost(cfg, w, w', id, code) && !SameSeats(w, w')
  {
    if code == CONSENTED || !cfg.hasOnDrop {
      EvictCosts(w, w', id);
    } else {
      assert w'.records[id].pendingDrops == w.records[id].pendingDrops + 1;
    }
  }

  /** The close of a socket leaves every seat alone exactly when the socket is
      not the mapped one of a tracked client; otherwise that client loses its
      seat or its socket. */
  lemma CloseDisturbsIff(cfg: Config, w: World, w': World, id: ClientId, s: Sock, code: int)
    requires Wired(w) && Grounded(w) && s in w.ws && w.ws[s].owner == id && w' == WsClose(cfg, w, s, code)
    ensures Wired(w')
    ensures SameSeats(w, w') <==> !(Mapped(w, id, s) && id in w.clients)
    ensures !SameSeats(w, w') ==> SeatLost(cfg, w, w', id, code)
  {
    var w1 := Forget(w, s);
    assert GoodName(w, id) && GoodConn(w, s) && GoodSeat(w, id);
    ForgetIs(w, w1, s);
    ForgetWires(w, w1, s);
    CloseIsHandled(cfg, w, w', s, code);
    if Mapped(w, id, s) {
      assert id in w1.clients ==> HasSocket(w1, id);
      HandleCloseWires(cfg, w1, w', id, code);
      if id in w.clients { LostAfter(cfg, w, w1, w', id, code); }
    }
  }

  lemma LostAfter(cfg: Config, w: World, w1: World, w': World, id: ClientId, code: int)
    requires GoodSeat(w, id) && id in w.clients && SameSeats(w, w1) && HasSocket(w1, id)
    requires w' == HandleClose(cfg, w1, id, code)
    ensures SeatLost(cfg, w, w', id, code) && !SameSeats(w, w')
  {
    HandleCloseCosts(cfg, w1, w', id, code);
  }

  // --- runs with any upgrade at any time ---

  /** A later upgrade for the client id is among the events. */
  ghost predicate Superseded(cfg: Config, w: World, es: seq<Event>, id: ClientId)
    decreases |es|
  {
    es != [] && Grounded(w) && Possible(w, es[0])
    && (Upgrades(w, es[0], id) || Superseded(cfg, Step(cfg, w, es[0]), es[1..], id))
  }

  predicate StaysOpen(es: seq<Event>, s: Sock) {
    forall i :: 0 <= i < |es| ==> !(es[i].EvClose? && es[i].s == s)
  }

  lemma UpgradeMoves(w: World, w': World, i: ClientId, s0: Sock, id: ClientId, s: Sock)
    requires Wired(w) && Upgraded(w, w', i, s0) && s in w.ws
    ensures Wired(w') && s in w'.ws && w'.ws[s].owner == w.ws[s].owner
    ensures Mapped(w', id, s) <==> Mapped(w, id, s) && id != i
  {
    UpgradeWires(w, w', i, s0);
  }

  lemma OthersMove(cfg: Config, w: World, w': World, e: Event, id: ClientId, s: Sock)
    requires Wired(w) && Grounded(w) && Possible(w, e) && s in w.ws && w' == Step(cfg, w, e)
    requires !e.EvOpen? && !e.EvReconnect? && !e.EvClose?
    ensures Wired(w') && s in w'.ws && w'.ws[s].owner == w.ws[s].owner
    ensures Mapped(w', id, s) <==> Mapped(w, id, s)
  {
    if e.EvAuthOk? { AuthOkWires(w, w', e.s, e.token); }
    else if e.EvAuthFail? { AuthFailWires(w, w', e.s); }
    else { LocalWires(cfg, w, w', e); }
    WiresKept(w, w');
  }

  /** One step: everything stays wired, and the mapping to socket s is lost
      exactly to an upgrade for that client id. */
  lemma MappingMoves(cfg: Config, w: World, w': World, e: Event, id: ClientId, s: Sock)
    requires Wired(w) && Grounded(w) && Possible(w, e) && w' == Step(cfg, w, e)
    requires s in w.ws && !(e.EvClose? && e.s == s)
    ensures Wired(w') && s in w'.ws && w'.ws[s].owner == w.ws[s].owner
    ensures Mapped(w', id, s) <==> Mapped(w, id, s) && !Upgrades(w, e, id)
  {
    if e.EvOpen? {
      OpenUpgrades(w, w', e.id, e.s);
      UpgradeMoves(w, w', e.id, e.s, id, s);
    } else if e.EvReconnect? {
      ReconnectUpgrades(w, w', e.param, e.s, e.token);
      UpgradeMoves(w, w', Resolve(w, e.param), e.s, id, s);
    } else if e.EvClose? {
      CloseWires(cfg, w, w', e.s, e.code);
    } else {
      OthersMove(cfg, w, w', e, id, s);
    }
  }

  lemma {:induction false} MappingIff(cfg: Config, w: World, es: seq<Event>, w': World, id: ClientId, s: Sock)
    requires Wired(w) && AnyRun(cfg, w, es, w') && s in w.ws && StaysOpen(es, s)
    ensures Wired(w') && s in w'.ws && w'.ws[s].owner == w.ws[s].owner
    ensures Mapped(w', id, s) <==> Mapped(w, id, s) && !Superseded(cfg, w, es, id)
    decreases |es|
  {
    WiredIsGrounded(w);
    if es != [] {
      var w1 := Step(cfg, w, es[0]);
      MappingMoves(cfg, w, w1, es[0], id, s);
      MappingIff(cfg, w1, es[1..], w', id, s);
    }
  }

  lemma RefusalMaps(cfg: Config, w: World, w': World, e: Event, id: ClientId)
    requires Wired(w) && Grounded(w) && Possible(w, e) && Refuses(w, e, id) && w' == Step(cfg, w, e)
    ensures SameSeats(w, w') && Mapped(w', id, e.s) && e.s in w'.ws && w'.ws[e.s].owner == id
  {
    RefusedUpgrade(w, w', id, e.s, if e.EvOpen? then "seat already in use" else "invalid session");
  }

  ghost predicate StepsTo(cfg: Config, w: World, e: Event, w': World) {
    Grounded(w) && Possible(w, e) && w' == Step(cfg, w, e)
  }

  /** The refused socket stays mapped until a later upgrade for its client id. */
  lemma RefusedStaysMapped(cfg: Config, w: World, e: Event, id: ClientId, w1: World, between: seq<Event>, w2: World)
    requires Wired(w) && Refuses(w, e, id) && StepsTo(cfg, w, e, w1)
    requires AnyRun(cfg, w1, between, w2) && StaysOpen(between, e.s)
    ensures SameSeats(w, w1) && Wired(w2) && e.s in w2.ws && w2.ws[e.s].owner == id
    ensures Mapped(w2, id, e.s) <==> !Superseded(cfg, w1, between, id)
  {
    RefusalMaps(cfg, w, w1, e, id);
    StepWires(cfg, w, w1, e);
    MappingIff(cfg, w1, between, w2, id, e.s);
  }

  /** A refused upgrade leaves every seat alone when it is refused. When its
      socket closes, after whatever happened in between, it leaves every seat
      alone exactly when its client id is not tracked by then or a later upgrade
      took the mapping over; otherwise that client is thrown out, by the room's
      own 4000 or where there is no onDrop, or loses its socket and is dropped. */
  lemma RefusedUpgradeDisturbsIff(cfg: Config, before: seq<Event>, w: World, e: Event, id: ClientId, w1: World,
                                  between: seq<Event>, w2: World, code: int, w3: World)
    requires AnyRun(cfg, Init, before, w) && Refuses(w, e, id) && StepsTo(cfg, w, e, w1)
    requires AnyRun(cfg, w1, between, w2) && StaysOpen(between, e.s) && StepsTo(cfg, w2, EvClose(e.s, code), w3)
    ensures SameSeats(w, w1)
    ensures SameSeats(w2, w3) <==> id !in w2.clients || Superseded(cfg, w1, between, id)
    ensures !SameSeats(w2, w3) ==> SeatLost(cfg, w2, w3, id, code)
  {
    AnyRunWires(cfg, Init, before, w);
    RefusedStaysMapped(cfg, w, e, id, w1, between, w2);
    CloseStepDisturbsIff(cfg, w2, w3, id, e.s, code);
  }

  lemma CloseStepDisturbsIff(cfg: Config, w: World, w': World, id: ClientId, s: Sock, code: int)
    requires Wired(w) && StepsTo(cfg, w, EvClose(s, code), w') && w.ws[s].owner == id
    ensures SameSeats(w, w') <==> !(Mapped(w, id, s) && id in w.clients)
    ensures !SameSeats(w, w') ==> SeatLost(cfg, w, w', id, code)
  {
    CloseDisturbsIff(cfg, w, w', id, s, code);
  }

  /** In particular a second open of a tracked client id, refused and closed by
      the room, throws the client out, whether or not it was connected. */
  lemma RefusedOpenCostsTheSeat(cfg: Config, es: seq<Event>, w: World, id: ClientId, s: Sock, code: int, w1: World)
    requires AnyRun(cfg, Init, es, w) && Grounded(w) && Possible(w, EvOpen(id, s)) && id in w.clients
    requires w1 == Step(cfg, w, EvOpen(id, s))
    ensures Grounded(w1) && Possible(w1, EvClose(s, code))
    ensures SeatLost(cfg, w1, Step(cfg, w1, EvClose(s, code)), id, code)
  {
    AnyRunWires(cfg, Init, es, w);
    assert GoodConn(w, s);
    StepWires(cfg, w, w1, EvOpen(id, s));
    WiredIsGrounded(w1);
    RefusedUpgrade(w, w1, id, s, "seat already in use");
    RefusedUpgradeDisturbsIff(cfg, es, w, EvOpen(id, s), id, w1, [], w1, code, Step(cfg, w1, EvClose(s, code)));
  }

  /** An orderly room stays undisturbed through a refusal and its close exactly
      when the client had no socket to be stripped of and no seat to be lost. */
  lemma UndisturbedIff(cfg: Config, before: seq<Event>, w: World, e: Event, id: ClientId, w1: World,
                       between: seq<Event>, w2: World, code: int, w3: World)
    requires Reaches(cfg, Init, before, w) && Refuses(w, e, id) && StepsTo(cfg, w, e, w1)
    requires AnyRun(cfg, w1, between, w2) && StaysOpen(between, e.s) && StepsTo(cfg, w2, EvClose(e.s, code), w3)
    ensures (Connected(w, id) ==> CurrentSocket(w1, id, w.records[id].socket.value)) && SameSeats(w2, w3) <==>
      !Connected(w, id) && (id !in w2.clients || Superseded(cfg, w1, between, id))
  {
    OrderlyIsAny(cfg, Init, before, w);
    RefusedUpgradeDisturbsIff(cfg, before, w, e, id, w1, between, w2, code, w3);
    if Connected(w, id) { TakenOverIff(cfg, before, w, w1, e, id); }
  }

  // --- broadcasts after a refused open ---

  /** From a refused upgrade on the two broadcast paths agree iff the client the
      upgrade is for had no open socket: publish no longer reaches it. */
  lemma RefusedUpgradeSilencesIff(cfg: Config, es: seq<Event>, w: World, w': World, e: Event, id: ClientId,
                                  p: Bytes, reliable: bool)
    requires Reaches(cfg, Init, es, w) && Grounded(w) && w.alive
    requires Possible(w, e) && Refuses(w, e, id) && id in w.clients && w' == Step(cfg, w, e)
    ensures id in w.records
    ensures BroadcastFast(cfg, w', p, reliable) == BroadcastLoop(cfg, w', p, reliable, {}) <==>
      !(w.records[id].socket.Some? && w.records[id].socket.value in w.ws
        && w.ws[w.records[id].socket.value].ready == Open)
  {
    ReachableInv(cfg, es, w);
    assert GoodClient(cfg, w, id);
    RefusedUpgrade(w, w', id, e.s, if e.EvOpen? then "seat already in use" else "invalid session");
    if w.records[id].socket.Some? && w.ws[w.records[id].socket.value].ready == Open {
      StrippedSocketIsSkipped(cfg, w, w', id, p, reliable);
    } else {
      SilencedByNothing(cfg, w, w', id, p, reliable);
    }
  }

  /** What a refusal leaves behind, without naming the refusal. */
  predicate Stripped(w: World, w': World, id: ClientId) {
    && SameSeats(w, w') && w'.alive == w.alive
    && (forall x <- w.ws :: x in w'.ws && w'.ws[x] == w.ws[x])
    && (forall x <- w'.ws :: x in w.ws || w'.ws[x].ready != Open)
    && w'.subs ==
      if id in w.clientSockets && w.clientSockets[id] in w.conns then w.subs - {w.clientSockets[id]} else w.subs
  }

  lemma StrippedSocketIsSkipped(cfg: Config, w: World, w': World, id: ClientId, p: Bytes, reliable: bool)
    requires Inv(cfg, w) && w.alive && id in w.clients && id in w.records && w.records[id].socket.Some?
    requires var o := w.records[id].socket.value; o in w.ws && w.ws[o].ready == Open
    requires Stripped(w, w', id)
    ensures BroadcastFast(cfg, w', p, reliable) != BroadcastLoop(cfg, w', p, reliable, {})
  {
    var o := w.records[id].socket.value;
    assert GoodClient(cfg, w, id);
    assert o in w'.ws && w'.ws[o] == w.ws[o] && o !in w'.subs && id in w'.clients - {};
    assert IsCurrent(w', o, w'.clients - {});
    assert |BroadcastLoop(cfg, w', p, reliable, {}).ws[o].wire| == |w.ws[o].wire| + 1;
    assert BroadcastFast(cfg, w', p, reliable).ws[o].wire == w.ws[o].wire;
  }

  lemma SilencedSocket(cfg: Config, w: World, w': World, id: ClientId, x: Sock)
    requires Inv(cfg, w) && id in w.clients && id in w.records && Stripped(w, w', id)
    requires w.records[id].socket.Some? ==>
      w.records[id].socket.value in w.ws && w.ws[w.records[id].socket.value].ready != Open
    requires x in w.ws && w.ws[x].ready == Open
    ensures x in w'.subs <==> IsCurrent(w', x, w'.clients)
  {
    OpenSubscribedIffCurrent(cfg, w, x);
    CurrentIff(cfg, w, x, w.clients);
    assert IsCurrent(w', x, w'.clients) <==> IsCurrent(w, x, w.clients);
    assert GoodSock(w, x) && GoodName(w, id);
  }

  lemma SilencedByNothing(cfg: Config, w: World, w': World, id: ClientId, p: Bytes, reliable: bool)
    requires Inv(cfg, w) && id in w.clients && id in w.records && Stripped(w, w', id)
    requires w.records[id].socket.Some? ==>
      w.records[id].socket.value in w.ws && w.ws[w.records[id].socket.value].ready != Open
    ensures BroadcastFast(cfg, w', p, reliable) == BroadcastLoop(cfg, w', p, reliable, {})
  {
    assert w'.clients - {} == w'.clients;
    forall x | x in w'.ws
      ensures PublishWs(w', x, p, reliable) ==
        if IsCurrent(w', x, w'.clients) then SendWs(w'.ws[x], User(p, reliable)) else w'.ws[x]
    {
      if x in w.ws && w.ws[x].ready == Open { SilencedSocket(cfg, w, w', id, x); }
    }
  }
}