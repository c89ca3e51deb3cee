/** Steps of the room in a joint run: the client's sockets and tokens stay what
    they were, and it is put on its sockets in the order it made them. */
module JointRoom {
  import opened Prelude
  import R = RoomSpec
  import RI = RoomInvariant
  import RR = RoomRuns
  import RF = RoomFrames
  import RT = RoomWires
  import C = ClientSpec
  import CP = ClientProofs
  import P = Parts
  import opened JointRun

  // --- steps of the room that leave the client's seat alone ---

  /** A socket the room has just got from the client. */
  ghost predicate NewEnd(room: R.World, c: R.ClientId, x: R.Ws) { Bare(x) && (x.owner == c || x.owner in room.issued) }

  ghost predicate SocketMoves(room: R.World, room': R.World, c: R.ClientId, s: nat) {
    RF.SocketFrame(room, room', s) && (s in room'.ws && s !in room.ws ==> NewEnd(room', c, room'.ws[s]))
  }

  /** Tokens are never handed on. */
  predicate TokensMove(room: R.World, room': R.World) {
    room.issued <= room'.issued
    && forall t <- room.issued :: t in room'.tokens ==> t in room.tokens && room'.tokens[t] == room.tokens[t]
  }

  ghost predicate Moves(room: R.World, room': R.World, c: R.ClientId, mine: set<nat>) {
    && RF.ClientFrame(room, room', c) && TokensMove(room, room')
    && (forall s {:trigger SocketMoves(room, room', c, s)} :: s in mine ==> SocketMoves(room, room', c, s))
  }

  lemma KnownMoves(room: R.World, room': R.World, c: R.ClientId, t: R.Token)
    requires TokensMove(room, room') && Known(room, c, t)
    ensures Known(room', c, t)
  {
  }

  /** A current socket belongs to the client it is current for. */
  lemma CurrentIsOwned(cfg: R.Config, room: R.World, s: nat)
    requires RI.Inv(cfg, room) && R.IsCurrent(room, s, room.clients)
    ensures s in room.ws && room.ws[s].owner in room.clients && room.ws[s].owner in room.records
    ensures s in room.records[room.ws[s].owner].socks
  {
    var d :| d in room.clients && d in room.records && room.records[d].socket == Some(s);
    assert RI.GoodClient(cfg, room, d);
  }

  /** A client's socket it was never on is nobody's current socket. */
  lemma StrayIsQuiet(cfg: R.Config, room: R.World, room': R.World, c: R.ClientId, s: nat)
    requires RI.Inv(cfg, room') && IdsApart(room') && RF.SocketFrame(room, room', s) && TokensMove(room, room')
    requires s in room.ws && (room.ws[s].owner == c || room.ws[s].owner in room.issued)
    requires c in room'.records ==> s !in room'.records[c].socks
    ensures s in room'.ws && RF.Quiet(room.ws[s], room'.ws[s])
  {
    if R.IsCurrent(room', s, room'.clients) {
      CurrentIsOwned(cfg, room', s);
      assert false;
    }
  }

  lemma QuietStaysBare(x: R.Ws, x': R.Ws)
    requires Bare(x) && RF.Quiet(x, x')
    ensures Bare(x')
  {
    forall i | 0 <= i < |x'.wire| ensures !x'.wire[i].Session? {
      if i < |x.wire| { assert x'.wire[i] == x.wire[i]; }
    }
  }

  lemma SessionsStayGood(room: R.World, room': R.World, c: R.ClientId, x: R.Ws, x': R.Ws)
    requires GoodSessions(room, c, x) && RF.Tame(x, x') && TokensMove(room, room')
    ensures GoodSessions(room', c, x')
  {
    forall i | 0 <= i < |x'.wire| && x'.wire[i].Session? ensures Known(room', c, x'.wire[i].token) {
      assert i < |x.wire| && x'.wire[i] == x.wire[i];
    }
  }

  lemma RoomEndMoves(cfg: R.Config, c: R.ClientId, w: World, w': World, s: nat)
    requires w' == w.(room := w'.room) && RI.Inv(cfg, w'.room) && IdsApart(w'.room)
    requires RF.ClientFrame(w.room, w'.room, c) && TokensMove(w.room, w'.room) && SocketMoves(w.room, w'.room, c, s)
    requires s in w.heard && RoomEnd(w, c, s)
    ensures RoomEnd(w', c, s) && HeardOn(w', s) == HeardOn(w, s)
  {
    if s in w.room.ws {
      var x, x' := w.room.ws[s], w'.room.ws[s];
      SessionsStayGood(w.room, w'.room, c, x, x');
      assert x'.wire[..w.heard[s]] == x.wire[..w.heard[s]];
      if !InSocks(w, c, s) {
        StrayIsQuiet(cfg, w.room, w'.room, c, s);
        QuietStaysBare(x, x');
      }
    } else if s in w'.room.ws {
      assert GoodSessions(w'.room, c, w'.room.ws[s]);
      assert w'.room.ws[s].wire[..0] == [];
    }
  }

  lemma LinkMoves(cfg: R.Config, c: R.ClientId, w: World, w': World, s: nat)
    requires w' == w.(room := w'.room) && RI.Inv(cfg, w'.room) && IdsApart(w'.room)
    requires RF.ClientFrame(w.room, w'.room, c) && TokensMove(w.room, w'.room) && SocketMoves(w.room, w'.room, c, s)
    requires s in w.client.sockets && Link(w, c, s)
    ensures Link(w', c, s) && HeardOn(w', s) == HeardOn(w, s)
  {
    RoomEndMoves(cfg, c, w, w', s);
    assert ClientEnd(w', c, s);
    assert GoodParam(w', c, s);
  }

  lemma {:induction false} HeardAllFrame(w: World, w': World, socks: seq<nat>)
    requires forall s :: s in socks ==> HeardOn(w', s) == HeardOn(w, s)
    ensures HeardAll(w', socks) == HeardAll(w, socks)
    decreases |socks|
  {
    if socks != [] { HeardAllFrame(w, w', socks[..|socks| - 1]); }
  }

  lemma {:induction false} TakenAllFrame(w: World, w': World, socks: seq<nat>)
    requires forall s :: s in socks ==> TakenOn(w', s) == TakenOn(w, s)
    ensures TakenAll(w', socks) == TakenAll(w, socks)
    decreases |socks|
  {
    if socks != [] { TakenAllFrame(w, w', socks[..|socks| - 1]); }
  }

  /** The tracked client's messages are in order, so what was handed is a beginning. */
  lemma TrackedHanded(cfg: R.Config, room: R.World, c: R.ClientId)
    requires RI.Inv(cfg, room) && c in room.records && room.records[c].alive
    ensures GoodHanded(room, c)
  {
    assert RI.GoodClient(cfg, room, c);
  }

  lemma HandedMoves(cfg: R.Config, room: R.World, room': R.World, c: R.ClientId)
    requires RI.Inv(cfg, room) && RI.Inv(cfg, room') && GoodHanded(room, c) && RF.ClientFrame(room, room', c)
    requires c in room.records ==> forall s :: s in room.records[c].socks ==> RF.SocketFrame(room, room', s)
    ensures GoodHanded(room', c)
  {
    if c in room.records {
      var r, r' := room.records[c], room'.records[c];
      assert RI.GoodClient(cfg, room, c) && RI.GoodClient(cfg, room', c);
      if r'.alive {
        TrackedHanded(cfg, room', c);
      } else {
        forall s | s in r.socks
          ensures s in room.ws && s in room'.ws && RI.Handed(room.ws[s]) == RI.Handed(room'.ws[s])
        {
          if R.IsCurrent(room', s, room'.clients) {
            CurrentIsOwned(cfg, room', s);
            assert false;
          }
        }
        RI.HandedAllFrame(r.socks, room.ws, room'.ws);
      }
    }
  }

  lemma MovesLinks(cfg: R.Config, c: R.ClientId, w: World, w': World, s: nat)
    requires Inv(cfg, c, w) && w' == w.(room := w'.room) && RI.Inv(cfg, w'.room) && IdsApart(w'.room)
    requires Moves(w.room, w'.room, c, w.client.sockets.Keys) && s in w.client.sockets
    ensures Link(w', c, s) && HeardOn(w', s) == HeardOn(w, s) && RF.SocketFrame(w.room, w'.room, s)
  {
    assert Link(w, c, s) && SocketMoves(w.room, w'.room, c, s);
    LinkMoves(cfg, c, w, w', s);
  }

  lemma MovesToken(c: R.ClientId, w: World, w': World)
    requires GoodToken(w, c) && w' == w.(room := w'.room)
    requires RF.ClientFrame(w.room, w'.room, c) && TokensMove(w.room, w'.room)
    ensures GoodToken(w', c) && SocksOf(w'.room, c) == SocksOf(w.room, c)
  {
    if w.token.Some? { KnownMoves(w.room, w'.room, c, w.token.value); }
  }

  lemma MovesKeeps(cfg: R.Config, c: R.ClientId, w: World, w': World)
    requires Inv(cfg, c, w) && w' == w.(room := w'.room) && RI.Inv(cfg, w'.room) && IdsApart(w'.room)
    requires Moves(w.room, w'.room, c, w.client.sockets.Keys) && Opened(w', c)
    ensures Inv(cfg, c, w')
  {
    forall s | s in w.client.sockets
      ensures Link(w', c, s) && HeardOn(w', s) == HeardOn(w, s) && RF.SocketFrame(w.room, w'.room, s)
    {
      MovesLinks(cfg, c, w, w', s);
    }
    HeardAllFrame(w, w', w.client.socks);
    MovesToken(c, w, w');
    TakenAllFrame(w, w', SocksOf(w.room, c));
    forall s | s in SocksOf(w.room, c) ensures RF.SocketFrame(w.room, w'.room, s) {
      WithinHas(SocksOf(w.room, c), w.client.socks, s);
    }
    HandedMoves(cfg, w.room, w'.room, c);
  }

  lemma FrameMoves(room: R.World, room': R.World, c: R.ClientId, mine: set<nat>)
    requires forall s :: s in mine ==> RF.Frame(room, room', s, c)
    requires RF.ClientFrame(room, room', c) && RF.IndexFrame(room, room')
    ensures Moves(room, room', c, mine)
  {
    forall s | s in mine ensures SocketMoves(room, room', c, s) { assert RF.Frame(room, room', s, c); }
  }

  /** Anything at the room that opens no socket and admits nobody. */
  lemma LocalKeeps(cfg: R.Config, c: R.ClientId, w: World, w': World, x: R.Event)
    requires Inv(cfg, c, w) && R.Grounded(w.room) && Enabled(c, w, Room(x))
    requires !x.EvOpen? && !x.EvReconnect? && !x.EvAuthOk? && w' == w.(room := R.Step(cfg, w.room, x))
    ensures Inv(cfg, c, w')
  {
    RR.StepKeeps(cfg, w.room, x);
    forall s ensures RF.Frame(w.room, w'.room, s, c) { RF.LocalFrame(cfg, w.room, w'.room, x, s, c); }
    assert RF.Frame(w.room, w'.room, 0, c);
    FrameMoves(w.room, w'.room, c, w.client.sockets.Keys);
    assert forall id :: id in w'.room.pending.Values ==> id in w.room.pending.Values;
    MovesKeeps(cfg, c, w, w');
  }

  /** A refused upgrade of a client's own socket, or any of somebody else's. */
  lemma RefusalMoves(room: R.World, room': R.World, c: R.ClientId, id: R.ClientId, s: nat, error: string,
                     mine: set<nat>)
    requires s !in room.ws && room' == R.Refuse(room, id, s, error) && (s in mine ==> id == c || id in room.issued)
    ensures Moves(room, room', c, mine)
  {
    RT.RefusedUpgrade(room, room', id, s, error);
    RefusedIsBare(room'.ws[s], error);
    forall x | x in mine ensures SocketMoves(room, room', c, x) {
      if x in room.ws { RF.SameWire(room.ws[x], room'.ws[x]); }
    }
  }

  lemma RefusedIsBare(x: R.Ws, error: string)
    requires x.wire == [R.AuthError(error)] && x.lost == []
    ensures Bare(x)
  {
    RI.RelAppend([], R.AuthError(error));
    assert [] + [R.AuthError(error)] == [R.AuthError(error)];
  }

  /** A socket whose onAuth begins. */
  lemma AuthStartMoves(room: R.World, room': R.World, c: R.ClientId, id: R.ClientId, s: nat, mine: set<nat>)
    requires s !in room.ws && id !in room.clients && room' == R.OpenStart(room, id, s) && (s in mine ==> id == c)
    ensures Moves(room, room', c, mine)
  {
    forall x | x in mine ensures SocketMoves(room, room', c, x) {
      if x in room.ws { RF.SameWire(room.ws[x], room'.ws[x]); }
    }
  }

  /** Another client is resumed. */
  lemma ResumedMoves(room: R.World, room': R.World, c: R.ClientId, id: R.ClientId, s: nat, token: R.Token,
                     mine: set<nat>)
    requires s !in room.ws && s !in mine && R.Waiting(room, id) && id != c && token !in room.issued
    requires room' == R.Resume(R.CompleteUpgrade(room, id, s), id, s, token)
    ensures Moves(room, room', c, mine)
  {
    RT.ResumedUpgrade(room, room', id, s, token);
    forall x | x in mine ensures SocketMoves(room, room', c, x) {
      if x in room.ws { RF.SameWire(room.ws[x], room'.ws[x]); }
    }
  }

  lemma OthersOpenKeeps(cfg: R.Config, c: R.ClientId, w: World, w': World, id: R.ClientId, s: nat)
    requires Inv(cfg, c, w) && R.Grounded(w.room) && Enabled(c, w, Room(R.EvOpen(id, s)))
    requires w' == w.(room := R.OpenStart(w.room, id, s))
    ensures Inv(cfg, c, w')
  {
    var mine := w.client.sockets.Keys;
    RR.StepKeeps(cfg, w.room, R.EvOpen(id, s));
    if id in w.room.clients {
      RefusalMoves(w.room, w'.room, c, id, s, "seat already in use", mine);
      RT.RefusedUpgrade(w.room, w'.room, id, s, "seat already in use");
    } else {
      AuthStartMoves(w.room, w'.room, c, id, s, mine);
    }
    assert forall d :: d in w'.room.pending.Values ==> d in w.room.pending.Values || d == id;
    MovesKeeps(cfg, c, w, w');
  }

  lemma OthersReconnectMoves(c: R.ClientId, room: R.World, room': R.World, param: R.Token, s: nat, token: R.Token,
                             mine: set<nat>)
    requires s !in room.ws && s !in mine && token !in room.issued && R.Resolve(room, param) != c
    requires room' == R.Reconnect(room, param, s, token)
    ensures Moves(room, room', c, mine) && room'.pending == room.pending && room.ws.Keys <= room'.ws.Keys
    ensures room'.records.Keys == room.records.Keys && room'.issued <= room.issued + {token}
  {
    var id := R.Resolve(room, param);
    if R.Waiting(room, id) {
      ResumedMoves(room, room', c, id, s, token, mine);
      RT.ResumedUpgrade(room, room', id, s, token);
    } else {
      RefusalMoves(room, room', c, id, s, "invalid session", mine);
      RT.RefusedUpgrade(room, room', id, s, "invalid session");
    }
  }

  lemma OthersReconnectKeeps(cfg: R.Config, c: R.ClientId, w: World, w': World, param: R.Token, s: nat, token: R.Token)
    requires Inv(cfg, c, w) && R.Grounded(w.room) && Enabled(c, w, Room(R.EvReconnect(param, s, token)))
    requires w' == w.(room := R.Reconnect(w.room, param, s, token))
    ensures Inv(cfg, c, w')
  {
    RR.StepKeeps(cfg, w.room, R.EvReconnect(param, s, token));
    OthersReconnectMoves(c, w.room, w'.room, param, s, token, w.client.sockets.Keys);
    MovesKeeps(cfg, c, w, w');
  }

  lemma AdmitMoves(room: R.World, room': R.World, c: R.ClientId, s: nat, token: R.Token, mine: set<nat>)
    requires s in room.pending && s in room.ws && s !in mine && room.pending[s] != c && token !in room.issued
    requires room' == R.AuthOk(room, s, token)
    ensures Moves(room, room', c, mine)
  {
    forall x | x in mine ensures SocketMoves(room, room', c, x) {
      if x in room.ws { RF.SameWire(room.ws[x], room'.ws[x]); }
    }
  }

  lemma OthersPending(cfg: R.Config, c: R.ClientId, w: World, s: nat)
    requires Inv(cfg, c, w) && s in w.room.pending && w.room.pending[s] != c
    ensures s !in w.client.sockets && s in w.room.ws && w.room.pending[s] !in w.room.issued
  {
    assert RI.GoodSock(w.room, s) && w.room.pending[s] in w.room.pending.Values;
    assert s in w.client.sockets ==> Link(w, c, s);
  }

  lemma OthersAdmitKeeps(cfg: R.Config, c: R.ClientId, w: World, w': World, s: nat, token: R.Token)
    requires Inv(cfg, c, w) && R.Grounded(w.room) && Enabled(c, w, Room(R.EvAuthOk(s, token)))
    requires w.room.pending[s] != c && w' == w.(room := R.AuthOk(w.room, s, token))
    ensures Inv(cfg, c, w')
  {
    RR.StepKeeps(cfg, w.room, R.EvAuthOk(s, token));
    OthersPending(cfg, c, w, s);
    AdmitMoves(w.room, w'.room, c, s, token, w.client.sockets.Keys);
    assert w.room.pending[s] in w.room.pending.Values;
    assert forall d :: d in w'.room.pending.Values ==> d in w.room.pending.Values;
    MovesKeeps(cfg, c, w, w');
  }

  /** The client was on no socket that the room has not seen. */
  lemma UnseenIsStray(cfg: R.Config, w: World, c: R.ClientId, s: nat)
    requires RI.Inv(cfg, w.room) && s !in w.room.ws
    ensures !InSocks(w, c, s)
  {
    assert RI.GoodClient(cfg, w.room, c);
  }

  // --- the client's own upgrades ---

  lemma OwnOpenKeeps(cfg: R.Config, c: R.ClientId, w: World, w': World, s: nat, token: R.Token)
    requires Inv(cfg, c, w) && R.Grounded(w.room) && Enabled(c, w, Arrive(s, token))
    requires Upgrade(w, c, s, token) == R.EvOpen(c, s) && w' == w.(room := R.OpenStart(w.room, c, s))
    ensures Inv(cfg, c, w')
  {
    RR.StepKeeps(cfg, w.room, R.EvOpen(c, s));
    assert Link(w, c, s);
    assert RI.GoodClient(cfg, w.room, c);
    AuthStartMoves(w.room, w'.room, c, c, s, w.client.sockets.Keys);
    assert forall d :: d in w'.room.pending.Values ==> d in w.room.pending.Values || d == c;
    MovesKeeps(cfg, c, w, w');
  }

  /** A token that no longer stands is refused. */
  lemma OwnRefusalKeeps(cfg: R.Config, c: R.ClientId, w: World, w': World, s: nat, token: R.Token)
    requires Inv(cfg, c, w) && R.Grounded(w.room) && Enabled(c, w, Arrive(s, token))
    requires Upgrade(w, c, s, token).EvReconnect? && !R.Waiting(w.room, R.Resolve(w.room, w.params[s]))
    requires w' == w.(room := R.Reconnect(w.room, w.params[s], s, token))
    ensures Inv(cfg, c, w')
  {
    RR.StepKeeps(cfg, w.room, Upgrade(w, c, s, token));
    assert Link(w, c, s);
    var id := R.Resolve(w.room, w.params[s]);
    RefusalMoves(w.room, w'.room, c, id, s, "invalid session", w.client.sockets.Keys);
    RT.RefusedUpgrade(w.room, w'.room, id, s, "invalid session");
    MovesKeeps(cfg, c, w, w');
  }

  /** A socket without messages has none taken. */
  lemma NothingTaken(w: World, c: R.ClientId, s: nat)
    requires s in w.client.sockets && Link(w, c, s) && !InSocks(w, c, s)
    ensures TakenOn(w, s) == []
  {
    assert CP.Rel(w.client.sockets[s].sent[..w.seen[s]]) == [];
    P.PartIsNoLonger(w.taken[s], CP.Rel(w.client.sockets[s].sent[..w.seen[s]]));
  }

  /** How the room changes when it puts the client on socket s. */
  ghost predicate PutOn(room: R.World, room': R.World, c: R.ClientId, s: nat, token: R.Token) {
    && c in room'.records && room'.records[c].socks == SocksOf(room, c) + [s] && room'.records[c].token == token
    && token !in room.issued && room'.issued == room.issued + {token}
    && TokensMove(room, room') && token in room'.tokens && room'.tokens[token] == c
    && s in room'.ws && room'.ws[s].owner == c
    && (forall i :: 0 <= i < |room'.ws[s].wire| && room'.ws[s].wire[i].Session? ==> room'.ws[s].wire[i].token == token)
    && (if s in room.ws then room.ws[s].wire <= room'.ws[s].wire && Bare(room.ws[s]) else true)
    && (forall x <- room.ws :: x in room'.ws && (x != s ==> room'.ws[x] == room.ws[x]))
    && (forall x <- room'.ws :: x in room.ws || x == s)
  }

  lemma PutOnLink(c: R.ClientId, w: World, w': World, s: nat, token: R.Token, x: nat)
    requires w' == w.(room := w'.room) && PutOn(w.room, w'.room, c, s, token) && GoodSocks(w.client)
    requires x in w.client.sockets && Link(w, c, x)
    ensures Link(w', c, x) && HeardOn(w', x) == HeardOn(w, x)
  {
    if x == s {
      if s in w.room.ws { assert w'.room.ws[s].wire[..w.heard[s]] == w.room.ws[s].wire[..w.heard[s]]; }
      else { assert w'.room.ws[s].wire[..0] == []; }
    } else if x in w.room.ws {
      SessionsStayGood(w.room, w'.room, c, w.room.ws[x], w'.room.ws[x]);
    }
    assert RoomEnd(w', c, x);
    assert ClientEnd(w', c, x);
    assert GoodParam(w', c, x);
  }

  lemma PutOnTaken(c: R.ClientId, w: World, w': World, s: nat, token: R.Token)
    requires w' == w.(room := w'.room) && PutOn(w.room, w'.room, c, s, token) && TakenOn(w, s) == []
    ensures TakenAll(w', SocksOf(w'.room, c)) == TakenAll(w, SocksOf(w.room, c))
  {
    var before := SocksOf(w.room, c);
    assert (before + [s])[..|before|] == before;
    TakenAllFrame(w, w', before);
    assert TakenAll(w, before) + [] == TakenAll(w, before);
  }

  lemma PutOnToken(c: R.ClientId, w: World, w': World, s: nat, token: R.Token)
    requires w' == w.(room := w'.room) && PutOn(w.room, w'.room, c, s, token) && GoodToken(w, c)
    ensures GoodToken(w', c)
  {
    if w.token.Some? { KnownMoves(w.room, w'.room, c, w.token.value); }
    assert w.client.state == C.Open ==> w.client.ws.value in SocksOf(w.room, c) + [s];
  }

  lemma PutOnKeeps(cfg: R.Config, c: R.ClientId, w: World, w': World, s: nat, token: R.Token)
    requires Inv(cfg, c, w) && w' == w.(room := w'.room) && RI.Inv(cfg, w'.room) && IdsApart(w'.room) && Opened(w', c)
    requires PutOn(w.room, w'.room, c, s, token) && s in w.client.sockets && !InSocks(w, c, s)
    requires w'.room.records[c].alive
    requires Within(SocksOf(w'.room, c), w.client.socks)
    ensures Inv(cfg, c, w')
  {
    forall x | x in w.client.sockets ensures Link(w', c, x) && HeardOn(w', x) == HeardOn(w, x) {
      assert Link(w, c, x);
      PutOnLink(c, w, w', s, token, x);
    }
    HeardAllFrame(w, w', w.client.socks);
    TrackedHanded(cfg, w'.room, c);
    assert Link(w, c, s);
    NothingTaken(w, c, s);
    PutOnTaken(c, w, w', s, token);
    PutOnToken(c, w, w', s, token);
  }

  /** The client's id is being authorised on its first socket, for the first time. */
  lemma OwnPending(cfg: R.Config, c: R.ClientId, w: World, s: nat)
    requires Inv(cfg, c, w) && s in w.room.pending && w.room.pending[s] == c
    ensures s in w.client.sockets && s == w.client.socks[0] && c !in w.room.records && c !in w.room.issued
    ensures s in w.room.ws && Bare(w.room.ws[s]) && w.room.ws[s].owner == c
  {
    assert RI.GoodSock(w.room, s) && c in w.room.pending.Values;
    assert w.client.socks[0] in w.client.socks;
    assert Link(w, c, s);
  }

  lemma OwnAdmitKeeps(cfg: R.Config, c: R.ClientId, w: World, w': World, s: nat, token: R.Token)
    requires Inv(cfg, c, w) && R.Grounded(w.room) && Enabled(c, w, Room(R.EvAuthOk(s, token)))
    requires w.room.pending[s] == c && w' == w.(room := R.AuthOk(w.room, s, token))
    ensures Inv(cfg, c, w')
  {
    RR.StepKeeps(cfg, w.room, R.EvAuthOk(s, token));
    OwnPending(cfg, c, w, s);
    PutOnByAuth(w.room, w'.room, c, s, token);
    AdmitOpened(c, w, w', s, token);
    WithinNext([], w.client.socks, s);
    PutOnKeeps(cfg, c, w, w', s, token);
  }

  lemma AdmitOpened(c: R.ClientId, w: World, w': World, s: nat, token: R.Token)
    requires w.client.socks != [] && Opened(w, c) && IdsApart(w.room)
    requires s in w.room.pending && w.room.pending[s] == c && s in w.room.ws && c !in w.room.issued
    requires TokensAreNotIds(w.room, R.EvAuthOk(s, token)) && w' == w.(room := R.AuthOk(w.room, s, token))
    ensures Opened(w', c) && IdsApart(w'.room)
  {
    assert c in w.room.pending.Values;
    assert forall d :: d in w'.room.pending.Values ==> d in w.room.pending.Values && d != c;
  }

  lemma PutOnByAuth(room: R.World, room': R.World, c: R.ClientId, s: nat, token: R.Token)
    requires s in room.pending && s in room.ws && room.pending[s] == c && c !in room.records && token !in room.issued
    requires room' == R.AuthOk(room, s, token) && Bare(room.ws[s]) && room.ws[s].owner == c
    ensures PutOn(room, room', c, s, token)
  {
    assert room'.records[c].socks == [] + [s];
  }

  lemma PutOnByResume(room: R.World, room': R.World, c: R.ClientId, s: nat, token: R.Token)
    requires s !in room.ws && R.Waiting(room, c) && token !in room.issued
    requires room' == R.Resume(R.CompleteUpgrade(room, c, s), c, s, token)
    ensures PutOn(room, room', c, s, token)
  {
    RT.ResumedUpgrade(room, room', c, s, token);
  }

  /** A token of the client's that stands is its current one. */
  lemma OwnParam(cfg: R.Config, c: R.ClientId, w: World, s: nat)
    requires Inv(cfg, c, w) && s in w.client.sockets && s !in w.room.ws && w.client.sockets[s].isReconnect
    requires s in w.params
    requires R.Waiting(w.room, R.Resolve(w.room, w.params[s]))
    ensures R.Resolve(w.room, w.params[s]) == c && c in w.room.records && !InSocks(w, c, s)
    ensures Within(w.room.records[c].socks, Before(w.client.socks, s))
  {
    assert Link(w, c, s);
    assert RI.GoodToken(w.room, w.params[s]);
    UnseenIsStray(cfg, w, c, s);
  }

  lemma ResumeOpened(c: R.ClientId, w: World, w': World, s: nat, token: R.Token)
    requires w.client.socks != [] && Opened(w, c) && IdsApart(w.room) && s !in w.room.ws && R.Waiting(w.room, c)
    requires token !in w.room.records && token !in w.room.pending.Values
    requires w' == w.(room := R.Resume(R.CompleteUpgrade(w.room, c, s), c, s, token))
    ensures Opened(w', c) && IdsApart(w'.room) && w'.room.records.Keys == w.room.records.Keys
    ensures w'.room.records[c].alive == w.room.records[c].alive
    ensures SocksOf(w'.room, c) == SocksOf(w.room, c) + [s]
  {
    RT.ResumedUpgrade(w.room, w'.room, c, s, token);
  }

  lemma OwnResumeKeeps(cfg: R.Config, c: R.ClientId, w: World, w': World, s: nat, token: R.Token)
    requires Inv(cfg, c, w) && R.Grounded(w.room) && Enabled(c, w, Arrive(s, token))
    requires Upgrade(w, c, s, token).EvReconnect? && R.Waiting(w.room, R.Resolve(w.room, w.params[s]))
    requires w' == w.(room := R.Reconnect(w.room, w.params[s], s, token))
    ensures Inv(cfg, c, w')
  {
    RR.StepKeeps(cfg, w.room, Upgrade(w, c, s, token));
    OwnParam(cfg, c, w, s);
    assert RI.GoodClient(cfg, w.room, c);
    ResumeOpened(c, w, w', s, token);
    PutOnByResume(w.room, w'.room, c, s, token);
    WithinNext(w.room.records[c].socks, w.client.socks, s);
    PutOnKeeps(cfg, c, w, w', s, token);
  }

  lemma RoomKeeps(cfg: R.Config, c: R.ClientId, w: World, x: R.Event)
    requires Inv(cfg, c, w) && R.Grounded(w.room) && Enabled(c, w, Room(x))
    ensures Inv(cfg, c, Step(cfg, c, w, Room(x)))
  {
    var w' := Step(cfg, c, w, Room(x));
    match x
    case EvOpen(id, s) => OthersOpenKeeps(cfg, c, w, w', id, s);
    case EvReconnect(param, s, token) => OthersReconnectKeeps(cfg, c, w, w', param, s, token);
    case EvAuthOk(s, token) =>
      if w.room.pending[s] == c {
        OwnAdmitKeeps(cfg, c, w, w', s, token);
      } else {
        OthersAdmitKeeps(cfg, c, w, w', s, token);
      }
    case _ => LocalKeeps(cfg, c, w, w', x);
  }

  lemma ArriveKeeps(cfg: R.Config, c: R.ClientId, w: World, s: nat, token: R.Token)
    requires Inv(cfg, c, w) && R.Grounded(w.room) && Enabled(c, w, Arrive(s, token))
    ensures Inv(cfg, c, Step(cfg, c, w, Arrive(s, token)))
  {
    var w' := Step(cfg, c, w, Arrive(s, token));
    if Upgrade(w, c, s, token).EvOpen? { OwnOpenKeeps(cfg, c, w, w', s, token); }
    else if R.Waiting(w.room, R.Resolve(w.room, w.params[s])) { OwnResumeKeeps(cfg, c, w, w', s, token); }
    else { OwnRefusalKeeps(cfg, c, w, w', s, token); }
  }
}
