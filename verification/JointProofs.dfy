/** What a client and its room keep over every joint run, and that reliable
    messages get through in order both ways. */
module JointProofs {
  import opened Prelude
  import R = RoomSpec
  import RI = RoomInvariant
  import C = ClientSpec
  import CP = ClientProofs
  import P = Parts
  import opened JointRun
  import opened JointRoom

  // --- the client takes a frame ---

  lemma RelOfNext(frames: seq<R.Frame>, n: nat)
    requires n < |frames|
    ensures RI.Rel(frames[..n + 1]) ==
      RI.Rel(frames[..n]) + if frames[n].User? && frames[n].reliable then [frames[n].payload] else []
  {
    assert frames[..n + 1] == frames[..n] + [frames[n]];
    RI.RelAppend(frames[..n], frames[n]);
  }

  /** Only the last of the sockets has changed. */
  lemma HeardAllLast(w: World, w': World, socks: seq<nat>, more: seq<R.Bytes>)
    requires socks != [] && CP.Distinct(socks)
    requires forall s :: s in socks && s != socks[|socks| - 1] ==> HeardOn(w', s) == HeardOn(w, s)
    requires HeardOn(w', socks[|socks| - 1]) == HeardOn(w, socks[|socks| - 1]) + more
    ensures HeardAll(w', socks) == HeardAll(w, socks) + more
  {
    CP.DistinctLast(socks);
    HeardAllFrame(w, w', socks[..|socks| - 1]);
  }

  /** A socket of the client's after one of its own steps: messages are at most
      added, if it may send, and a silent socket stays silent. */
  predicate WsMoves(x: C.Ws, x': C.Ws, maySend: bool) {
    && x'.isReconnect == x.isReconnect && x.sent <= x'.sent && (maySend || x'.sent == x.sent)
    && (x'.live && x'.wired ==> x.live && x.wired)
  }

  lemma PushedMoves(x: C.Ws, ms: seq<C.Message>)
    ensures WsMoves(x, C.Push(x, ms), true)
  {
  }

  /** Only a socket that the room has put the client on may send. */
  predicate ClientMoves(c: R.ClientId, w: World, k: C.World, s: nat)
    requires s in w.client.sockets
  {
    s in k.sockets && WsMoves(w.client.sockets[s], k.sockets[s], InSocks(w, c, s))
  }

  lemma LinkClientMoves(c: R.ClientId, w: World, w': World, s: nat)
    requires s in w.client.sockets && Link(w, c, s) && ClientMoves(c, w, w'.client, s)
    requires w'.room == w.room && w'.params == w.params && w'.seen == w.seen && w'.taken == w.taken
    requires w'.client.socks == w.client.socks && s in w'.heard && RoomEnd(w', c, s)
    ensures Link(w', c, s)
  {
    assert w'.client.sockets[s].sent[..w.seen[s]] == w.client.sockets[s].sent[..w.seen[s]];
    assert ClientEnd(w', c, s);
    assert GoodParam(w', c, s);
  }

  lemma GoodSocksMove(c: R.ClientId, w: World, k: C.World)
    requires GoodSocks(w.client) && k.socks == w.client.socks && k.sockets.Keys == w.client.sockets.Keys
    requires forall s {:trigger ClientMoves(c, w, k, s)} :: s in w.client.sockets ==> ClientMoves(c, w, k, s)
    ensures GoodSocks(k)
  {
    forall s | s in k.sockets
      ensures CP.Attached(k, s) ==> s == k.socks[|k.socks| - 1]
      ensures !k.sockets[s].isReconnect ==> s == k.socks[0]
    {
      assert ClientMoves(c, w, k, s);
    }
  }

  ghost predicate GoodEnd(w: World, c: R.ClientId, s: nat) { s in w.heard && RoomEnd(w, c, s) }

  /** The machine moves on without making a socket. */
  lemma ClientMovesKeeps(cfg: R.Config, c: R.ClientId, w: World, w': World)
    requires Inv(cfg, c, w) && CP.Inv(w'.client) && GoodToken(w', c)
    requires w' == w.(client := w'.client, token := w'.token, heard := w'.heard, got := w'.got)
    requires w'.client.socks == w.client.socks && w'.client.sockets.Keys == w.client.sockets.Keys
    requires forall s {:trigger ClientMoves(c, w, w'.client, s)} :: s in w.client.sockets ==>
      ClientMoves(c, w, w'.client, s)
    requires forall s {:trigger GoodEnd(w', c, s)} :: s in w.client.sockets ==> GoodEnd(w', c, s)
    requires w'.got == HeardAll(w', w.client.socks)
    ensures Inv(cfg, c, w')
  {
    GoodSocksMove(c, w, w'.client);
    forall s | s in w'.client.sockets ensures Link(w', c, s) {
      assert Link(w, c, s) && ClientMoves(c, w, w'.client, s) && GoodEnd(w', c, s);
      LinkClientMoves(c, w, w', s);
    }
    SameRoom(c, w, w');
  }

  /** What only depends on the room and on the order of the client's sockets. */
  lemma SameRoom(c: R.ClientId, w: World, w': World)
    requires w'.room == w.room && w'.taken == w.taken && w'.client.socks == w.client.socks && w.client.socks != []
    ensures TakenAll(w', SocksOf(w'.room, c)) == TakenAll(w, SocksOf(w.room, c))
    ensures Opened(w', c) == Opened(w, c)
  {
    TakenAllFrame(w, w', SocksOf(w.room, c));
  }

  lemma HeardEnds(cfg: R.Config, c: R.ClientId, w: World, w': World, s: nat, x: nat)
    requires Inv(cfg, c, w) && Enabled(c, w, Hear(s)) && w'.room == w.room && w'.heard == w.heard[s := w.heard[s] + 1]
    requires x in w.client.sockets
    ensures GoodEnd(w', c, x) && (x != s ==> HeardOn(w', x) == HeardOn(w, x))
  {
    assert Link(w, c, x) && Link(w, c, s);
  }

  /** The frame is off the wire, and reliable ones are with the app. */
  lemma HeardNext(cfg: R.Config, c: R.ClientId, w: World, w': World, s: nat)
    requires Inv(cfg, c, w) && Enabled(c, w, Hear(s)) && w'.room == w.room && w'.heard == w.heard[s := w.heard[s] + 1]
    requires var f := w.room.ws[s].wire[w.heard[s]];
      w'.got == w.got + if f.User? && f.reliable then [f.payload] else []
    ensures w'.got == HeardAll(w', w.client.socks)
    ensures forall x {:trigger GoodEnd(w', c, x)} :: x in w.client.sockets ==> GoodEnd(w', c, x)
  {
    var f := w.room.ws[s].wire[w.heard[s]];
    forall x | x in w.client.sockets ensures GoodEnd(w', c, x) && (x != s ==> HeardOn(w', x) == HeardOn(w, x)) {
      HeardEnds(cfg, c, w, w', s, x);
    }
    RelOfNext(w.room.ws[s].wire, w.heard[s]);
    HeardAllLast(w, w', w.client.socks, if f.User? && f.reliable then [f.payload] else []);
  }

  /** What hearing a frame changes. */
  lemma HearShape(w: World, w': World, s: nat, f: R.Frame)
    requires s in w.client.sockets && s in w.heard && w' == HearFrame(w, s, f)
    ensures w' == w.(client := w'.client, token := w'.token, heard := w'.heard, got := w'.got)
    ensures w'.heard == w.heard[s := w.heard[s] + 1]
    ensures w'.got == w.got + if f.User? && f.reliable then [f.payload] else []
    ensures w'.token == if f.Session? then Some(f.token) else w.token
    ensures w'.client ==
      if f.Session? then C.OnSession(w.client, s) else if f.AuthError? then C.OnAuthError(w.client, s) else w.client
  {
  }

  lemma HearUserKeeps(cfg: R.Config, c: R.ClientId, w: World, w': World, s: nat)
    requires Inv(cfg, c, w) && Enabled(c, w, Hear(s)) && w.room.ws[s].wire[w.heard[s]].User?
    requires w' == HearFrame(w, s, w.room.ws[s].wire[w.heard[s]])
    ensures Inv(cfg, c, w')
  {
    HearShape(w, w', s, w.room.ws[s].wire[w.heard[s]]);
    HeardNext(cfg, c, w, w', s);
    forall x | x in w.client.sockets ensures ClientMoves(c, w, w.client, x) { }
    ClientMovesKeeps(cfg, c, w, w');
  }

  lemma SessionPutsOn(cfg: R.Config, c: R.ClientId, w: World, s: nat)
    requires Inv(cfg, c, w) && Enabled(c, w, Hear(s)) && w.room.ws[s].wire[w.heard[s]].Session?
    ensures InSocks(w, c, s) && Known(w.room, c, w.room.ws[s].wire[w.heard[s]].token)
    ensures w.client.state != C.Closed ==> w.client.ws == Some(s)
  {
    assert Link(w, c, s);
  }

  lemma SessionSockets(k: C.World, k': C.World, s: nat)
    requires s in k.sockets && k' == C.OnSession(k, s)
    ensures k'.socks == k.socks && k'.sockets.Keys == k.sockets.Keys
    ensures k'.sockets == k.sockets || k'.sockets == k.sockets[s := C.Push(k.sockets[s], k.buffer)]
  {
    if k.state == (if k.sockets[s].isReconnect then C.Reconnecting else C.Connecting) {
      assert k'.sockets == k.sockets[s := C.Push(k.sockets[s], k.buffer)];
    } else {
      assert k' == k.(hasToken := true);
    }
  }

  lemma SessionMoves(c: R.ClientId, w: World, k: C.World, s: nat, x: nat)
    requires s in w.client.sockets && x in w.client.sockets && InSocks(w, c, s) && k == C.OnSession(w.client, s)
    ensures ClientMoves(c, w, k, x) && k.socks == w.client.socks && k.sockets.Keys == w.client.sockets.Keys
  {
    SessionSockets(w.client, k, s);
    PushedMoves(w.client.sockets[s], w.client.buffer);
  }

  lemma SessionState(k: C.World, s: nat)
    requires s in k.sockets
    ensures C.OnSession(k, s).hasToken && C.OnSession(k, s).ws == k.ws
    ensures C.OnSession(k, s).state == k.state || (C.OnSession(k, s).state == C.Open && k.state != C.Closed)
  {
  }

  lemma HearSessionKeeps(cfg: R.Config, c: R.ClientId, w: World, w': World, s: nat)
    requires Inv(cfg, c, w) && Enabled(c, w, Hear(s)) && w.room.ws[s].wire[w.heard[s]].Session?
    requires w' == HearFrame(w, s, w.room.ws[s].wire[w.heard[s]])
    ensures Inv(cfg, c, w')
  {
    HearShape(w, w', s, w.room.ws[s].wire[w.heard[s]]);
    HeardNext(cfg, c, w, w', s);
    SessionPutsOn(cfg, c, w, s);
    CP.SessionKeeps(w.client, s);
    SessionState(w.client, s);
    SessionMoves(c, w, w'.client, s, s);
    forall x | x in w.client.sockets ensures ClientMoves(c, w, w'.client, x) { SessionMoves(c, w, w'.client, s, x); }
    ClientMovesKeeps(cfg, c, w, w');
  }

  lemma HearErrorKeeps(cfg: R.Config, c: R.ClientId, w: World, w': World, s: nat)
    requires Inv(cfg, c, w) && Enabled(c, w, Hear(s)) && w.room.ws[s].wire[w.heard[s]].AuthError?
    requires w' == HearFrame(w, s, w.room.ws[s].wire[w.heard[s]])
    ensures Inv(cfg, c, w')
  {
    HearShape(w, w', s, w.room.ws[s].wire[w.heard[s]]);
    HeardNext(cfg, c, w, w', s);
    CP.AuthErrorKeeps(w.client, s);
    ErrorSame(w.client, s);
    forall x | x in w.client.sockets ensures ClientMoves(c, w, w'.client, x) { }
    ClientMovesKeeps(cfg, c, w, w');
  }

  lemma ErrorSame(k: C.World, s: nat)
    requires s in k.sockets
    ensures Same(k, C.OnAuthError(k, s))
  {
    ClosedSame(k, C.SessionRejected);
  }

  /** No socket is touched, and nothing opens. */
  predicate Same(k: C.World, k': C.World) { k'.sockets == k.sockets && StaysPut(k, k') }

  lemma ClosedSame(k: C.World, cause: C.Cause)
    ensures Same(k, C.EnterClosed(k, cause)) && C.EnterClosed(k, cause).state == C.Closed
  {
  }

  lemma RetrySame(k: C.World)
    ensures Same(k, C.StartReconnect(k))
  {
    ClosedSame(k, C.ReconnectFailed);
  }

  // --- the app, the timers, a socket's close event ---

  lemma CallMoves(k: C.World, k': C.World, call: C.Call)
    requires k.state != C.Open && k.state != C.Connecting && k.ws.None?
    requires k' == match call case CallSend(m) => C.Send(k, m) case CallClose => C.Close(k)
    ensures Same(k, k') && k'.ws.None? && (k'.state == C.Reconnecting || k'.state == C.Closed)
  {
    match call
    case CallSend(m) => if k.state == C.Reconnecting && m.reliable { HoldSame(k, k', m); CP.SendBuffers(k, m); }
    case CallClose => ClosedSame(k.(closeCalled := true), C.Consented);
  }

  lemma {:induction false} CallsMove(k: C.World, calls: seq<C.Call>)
    requires k.state == C.Reconnecting && k.ws.None?
    ensures var k' := C.Calls(k, calls);
      Same(k, k') && k'.ws.None? && (k'.state == C.Reconnecting || k'.state == C.Closed)
    decreases |calls|
  {
    if calls != [] {
      var n := |calls| - 1;
      CallsMove(k, calls[..n]);
      CallMoves(C.Calls(k, calls[..n]), C.Calls(k, calls), calls[n]);
    }
  }

  /** A client step that makes no socket, as one socket sees it. */
  predicate Stays(k: C.World, k': C.World, s: nat) {
    s in k.sockets ==>
      s in k'.sockets && WsMoves(k.sockets[s], k'.sockets[s], k.state == C.Open && k.ws == Some(s))
  }

  predicate StaysPut(k: C.World, k': C.World) {
    && k'.socks == k.socks && k'.sockets.Keys == k.sockets.Keys && k'.hasToken == k.hasToken
    && (k'.state == C.Open ==> k.state == C.Open && k'.ws == k.ws)
  }

  lemma DroppedSame(k: C.World, k': C.World, code: int, longUptime: bool, calls: seq<C.Call>)
    requires k' == C.Dropped(k, code, longUptime, calls) && k.state == C.Open
    ensures Same(k, k')
  {
    if code == C.CONSENTED {
      ClosedSame(k, if k.consentedClose then C.Consented else C.Server);
    } else if k.hasToken {
      var k1 := k.(state := C.Reconnecting, ws := None, retryCount := if longUptime then 0 else k.retryCount);
      CallsMove(k1, calls);
      RetrySame(C.Calls(k1, calls));
    } else {
      ClosedSame(k, C.Server);
    }
  }

  /** A socket's close event changes only its own liveness. */
  lemma CloseStays(k: C.World, k': C.World, s: nat, code: int, longUptime: bool, calls: seq<C.Call>)
    requires s in k.sockets && k' == C.OnClose(k, s, code, longUptime, calls)
    ensures StaysPut(k, k') && k'.sockets == k.sockets[s := k.sockets[s].(live := false)]
  {
    var k1 := k.(uptimeTimer := false, sockets := k.sockets[s := k.sockets[s].(live := false)]);
    match k.state
    case Closed =>
    case Connecting => ClosedSame(k1, if k.initialAuthFailed then C.Auth else C.InitialConnectFailed);
    case Reconnecting => RetrySame(k1);
    case Open => DroppedSame(k1, k', code, longUptime, calls);
  }

  lemma StepStays(k: C.World, k': C.World, e: C.Event, s: nat)
    requires C.Enabled(k, e) && k' == C.Step(k, e) && (e.EvClose? || e.EvUptime? || e.EvSend? || e.EvCloseCall?)
    ensures StaysPut(k, k') && Stays(k, k', s)
  {
    match e
    case EvClose(x, code, longUptime, calls) => CloseStays(k, k', x, code, longUptime, calls);
    case EvUptime =>
    case EvSend(m) => SendStays(k, k', m, s);
    case EvCloseCall => CloseCallStays(k, k', s);
  }

  lemma SameStays(k: C.World, k': C.World, s: nat)
    requires Same(k, k')
    ensures Stays(k, k', s)
  {
  }

  lemma HoldSame(k: C.World, k': C.World, m: C.Message)
    requires (k.state == C.Connecting || k.state == C.Reconnecting) && m.reliable && k' == C.Send(k, m)
    ensures Same(k, k')
  {
    ClosedSame(CP.Buffered(k, m), C.BufferOverflow);
    CP.SendBuffers(k, m);
  }

  lemma PushSockets(k: C.World, k': C.World, m: C.Message)
    requires k.state == C.Open && k.ws.Some? && k.ws.value in k.sockets && k' == C.Send(k, m)
    ensures k'.sockets == k.sockets[k.ws.value := C.Push(k.sockets[k.ws.value], [m])] && StaysPut(k, k')
  {
  }

  lemma PushStays(k: C.World, k': C.World, m: C.Message, s: nat)
    requires k.state == C.Open && k.ws.Some? && k.ws.value in k.sockets && k' == C.Send(k, m)
    ensures StaysPut(k, k') && Stays(k, k', s)
  {
    PushSockets(k, k', m);
    PushedMoves(k.sockets[k.ws.value], [m]);
  }

  lemma SendStays(k: C.World, k': C.World, m: C.Message, s: nat)
    requires k' == C.Send(k, m)
    ensures StaysPut(k, k') && Stays(k, k', s)
  {
    if (k.state == C.Connecting || k.state == C.Reconnecting) && m.reliable {
      HoldSame(k, k', m);
      SameStays(k, k', s);
    } else if k.state == C.Open && k.ws.Some? && k.ws.value in k.sockets {
      PushStays(k, k', m, s);
    } else {
      SameStays(k, k', s);
    }
  }

  lemma DetachStays(k: C.World, k': C.World, x: nat, s: nat)
    requires k' == C.Detach(k, x)
    ensures StaysPut(k, k') && Stays(k, k', s)
  {
    if x in k.sockets {
      assert k'.sockets == k.sockets[x := k.sockets[x].(wired := false)];
    } else {
      SameStays(k, k', s);
    }
  }

  lemma CloseCallStays(k: C.World, k': C.World, s: nat)
    requires k' == C.Close(k)
    ensures StaysPut(k, k') && Stays(k, k', s)
  {
    var k0 := k.(closeCalled := true);
    if k.state == C.Reconnecting || (k.state == C.Connecting && k.ws.Some?) {
      var k1 := if k.ws.Some? then C.Detach(k0, k.ws.value) else k0;
      if k.ws.Some? { DetachStays(k0, k1, k.ws.value, s); }
      ClosedSame(k1, C.Consented);
      assert k' == C.EnterClosed(k1, C.Consented);
    } else {
      SameStays(k, k', s);
    }
  }

  /** An open connection's socket is one the room has put the client on. */
  lemma StaysMoves(c: R.ClientId, w: World, k: C.World, s: nat)
    requires s in w.client.sockets && Stays(w.client, k, s) && GoodToken(w, c)
    ensures ClientMoves(c, w, k, s)
  {
  }

  lemma StaysToken(c: R.ClientId, w: World, w': World)
    requires GoodToken(w, c) && StaysPut(w.client, w'.client) && w'.room == w.room && w'.token == w.token
    ensures GoodToken(w', c)
  {
  }

  lemma ClientMovesOne(cfg: R.Config, c: R.ClientId, w: World, w': World, e: C.Event, s: nat)
    requires Inv(cfg, c, w) && Enabled(c, w, Client(e)) && !e.EvBackoff? && w' == w.(client := w'.client)
    requires w'.client == C.Step(w.client, e) && s in w.client.sockets
    ensures ClientMoves(c, w, w'.client, s) && GoodEnd(w', c, s) && StaysPut(w.client, w'.client)
  {
    assert Link(w, c, s);
    StepStays(w.client, w'.client, e, s);
    StaysMoves(c, w, w'.client, s);
  }

  lemma ClientKeeps(cfg: R.Config, c: R.ClientId, w: World, w': World, e: C.Event)
    requires Inv(cfg, c, w) && Enabled(c, w, Client(e)) && !e.EvBackoff?
    requires w' == w.(client := w'.client) && w'.client == C.Step(w.client, e)
    ensures Inv(cfg, c, w')
  {
    CP.StepKeeps(w.client, e);
    assert w.client.socks[0] in w.client.socks;
    ClientMovesOne(cfg, c, w, w', e, w.client.socks[0]);
    forall s | s in w.client.sockets ensures ClientMoves(c, w, w'.client, s) && GoodEnd(w', c, s) {
      ClientMovesOne(cfg, c, w, w', e, s);
    }
    HeardAllFrame(w, w', w.client.socks);
    StaysToken(c, w, w');
    ClientMovesKeeps(cfg, c, w, w');
  }

  // --- the next attempt's socket ---

  lemma MadeClient(k: C.World, s: nat)
    requires CP.Inv(k) && C.Enabled(k, C.EvBackoff(s))
    ensures var k' := C.OnBackoff(k, s);
      && k'.socks == k.socks + [s] && k'.sockets == k.sockets[s := C.Ws(true, true, true, [])]
      && k'.hasToken && k.hasToken && k'.state == C.Reconnecting
    ensures forall x <- k.sockets :: !CP.Attached(k, x)
  {
  }

  lemma MadeSocks(k: C.World, k': C.World, s: nat)
    requires CP.Inv(k) && GoodSocks(k) && C.Enabled(k, C.EvBackoff(s)) && k' == C.OnBackoff(k, s) && CP.Inv(k')
    ensures GoodSocks(k')
  {
    MadeClient(k, s);
    forall x ensures x in k'.socks <==> x in k'.sockets { assert x in k.socks <==> x in k.sockets; }
    forall x | x in k'.sockets
      ensures CP.Attached(k', x) ==> x == s
      ensures !k'.sockets[x].isReconnect ==> x == k'.socks[0]
    {
      if x != s { assert CP.Attached(k', x) ==> CP.Attached(k, x); }
    }
  }

  lemma MadeLink(cfg: R.Config, c: R.ClientId, w: World, w': World, s: nat, x: nat)
    requires Inv(cfg, c, w) && s !in w.room.ws && s !in w.client.sockets && w.token.Some?
    requires w' == Made(w, s).(client := w'.client) && x in w'.client.sockets && w'.client.socks == w.client.socks + [s]
    requires w'.client.sockets == w.client.sockets[s := C.Ws(true, true, true, [])]
    ensures Link(w', c, x) && (x in w.client.sockets ==> HeardOn(w', x) == HeardOn(w, x))
  {
    BeforeLonger(w.client.socks, s, x);
    if x == s {
      UnseenIsStray(cfg, w, c, s);
      assert CP.Rel([]) == [];
      P.PrefixIsPart<C.Message>([], []);
    } else {
      assert Link(w, c, x);
    }
    assert RoomEnd(w', c, x);
    assert ClientEnd(w', c, x);
    assert GoodParam(w', c, x);
  }

  lemma MakeHistories(cfg: R.Config, c: R.ClientId, w: World, w': World, s: nat)
    requires Inv(cfg, c, w) && s !in w.room.ws && s !in w.client.sockets && w' == Made(w, s).(client := w'.client)
    requires w'.client.socks == w.client.socks + [s]
    requires forall x :: x in w.client.sockets ==> HeardOn(w', x) == HeardOn(w, x)
    ensures HeardAll(w', w'.client.socks) == HeardAll(w, w.client.socks)
    ensures TakenAll(w', SocksOf(w'.room, c)) == TakenAll(w, SocksOf(w.room, c))
    ensures Within(SocksOf(w'.room, c), w'.client.socks)
  {
    var socks := w.client.socks;
    assert (socks + [s])[..|socks|] == socks;
    HeardAllFrame(w, w', socks);
    assert HeardAll(w', socks + [s]) == HeardAll(w', socks) + [];
    UnseenIsStray(cfg, w, c, s);
    WithinLonger(SocksOf(w.room, c), socks, s);
    TakenAllFrame(w, w', SocksOf(w.room, c));
  }

  lemma MakeShape(w: World, w': World, s: nat)
    requires CP.Inv(w.client) && C.Enabled(w.client, C.EvBackoff(s)) && w' == ClientStep(w, C.EvBackoff(s))
    ensures w' == Made(w, s).(client := C.OnBackoff(w.client, s)) && s !in w.client.sockets
  {
    MadeClient(w.client, s);
  }

  lemma MakeKeeps(cfg: R.Config, c: R.ClientId, w: World, w': World, s: nat)
    requires Inv(cfg, c, w) && Enabled(c, w, Client(C.EvBackoff(s))) && w' == ClientStep(w, C.EvBackoff(s))
    ensures Inv(cfg, c, w')
  {
    var k' := C.OnBackoff(w.client, s);
    CP.StepKeeps(w.client, C.EvBackoff(s));
    MakeShape(w, w', s);
    MadeClient(w.client, s);
    MadeSocks(w.client, k', s);
    forall x | x in k'.sockets ensures Link(w', c, x) && (x in w.client.sockets ==> HeardOn(w', x) == HeardOn(w, x)) {
      MadeLink(cfg, c, w, w', s, x);
    }
    MakeHistories(cfg, c, w, w', s);
    assert GoodToken(w', c) && Opened(w', c);
  }

  // --- the room takes a message ---

  /** What the room accepts comes from the socket the client is on now. */
  lemma AcceptedIsCurrent(cfg: R.Config, c: R.ClientId, w: World, s: nat)
    requires Inv(cfg, c, w) && s in w.client.sockets && s in w.room.ws && Accepts(w.room, s)
    ensures c in w.room.records && w.room.records[c].socks != []
    ensures w.room.records[c].socks[|w.room.records[c].socks| - 1] == s
  {
    assert Link(w, c, s);
    var id := w.room.ws[s].owner;
    assert RI.GoodClient(cfg, w.room, id);
  }

  lemma {:induction false} WithinDistinct(a: seq<nat>, b: seq<nat>)
    requires Within(a, b) && CP.Distinct(b)
    ensures CP.Distinct(a)
    decreases |b|
  {
    if a != [] {
      var n := |a| - 1;
      if a[n] == b[|b| - 1] {
        WithinDistinct(a[..n], b[..|b| - 1]);
        forall i | 0 <= i < n ensures a[i] != a[n] { WithinHas(a[..n], b[..|b| - 1], a[..n][i]); }
        forall i, j | 0 <= i < j < |a| ensures a[i] != a[j] { if j < n { assert a[..n][i] != a[..n][j]; } }
      } else {
        WithinDistinct(a, b[..|b| - 1]);
      }
    }
  }

  lemma TakenAllLast(w: World, w': World, socks: seq<nat>, m: C.Message)
    requires socks != [] && CP.Distinct(socks)
    requires forall s :: s in socks && s != socks[|socks| - 1] ==> TakenOn(w', s) == TakenOn(w, s)
    requires TakenOn(w', socks[|socks| - 1]) == TakenOn(w, socks[|socks| - 1]) + [m]
    ensures TakenAll(w', socks) == TakenAll(w, socks) + [m]
  {
    CP.DistinctLast(socks);
    TakenAllFrame(w, w', socks[..|socks| - 1]);
  }

  lemma RelOfNextMessage(sent: seq<C.Message>, n: nat)
    requires n < |sent|
    ensures CP.Rel(sent[..n + 1]) == CP.Rel(sent[..n]) + if sent[n].reliable then [sent[n]] else []
  {
    assert sent[..n + 1] == sent[..n] + [sent[n]];
    CP.RelConcat(sent[..n], [sent[n]]);
    CP.RelOfOne(sent[n]);
  }

  lemma ReadOwnEnd(c: R.ClientId, w: World, w': World, s: nat)
    requires s in w.client.sockets && Link(w, c, s) && s in w.room.ws && w.seen[s] < |w.client.sockets[s].sent|
    requires w' == ReadMessage(w, s, w.client.sockets[s].sent[w.seen[s]])
    ensures s in w'.seen && s in w'.taken && ClientEnd(w', c, s)
  {
    var sent, n := w.client.sockets[s].sent, w.seen[s];
    var more := if sent[n].reliable then [sent[n]] else [];
    RelOfNextMessage(sent, n);
    P.PrefixIsPart([], more);
    P.PartsConcat(w.taken[s], CP.Rel(sent[..n]), [], more);
    assert w.taken[s] + [] == w.taken[s];
    P.PrefixIsPart(more, more);
    P.PartsConcat(w.taken[s], CP.Rel(sent[..n]), more, more);
  }

  lemma ReadLink(c: R.ClientId, w: World, w': World, s: nat, x: nat)
    requires s in w.client.sockets && x in w.client.sockets && Link(w, c, s) && Link(w, c, x)
    requires s in w.room.ws && w.seen[s] < |w.client.sockets[s].sent|
    requires w' == ReadMessage(w, s, w.client.sockets[s].sent[w.seen[s]])
    ensures Link(w', c, x) && HeardOn(w', x) == HeardOn(w, x)
  {
    ReadShape(w, w', s, w.client.sockets[s].sent[w.seen[s]]);
    if x == s { ReadOwnEnd(c, w, w', s); }
    assert RoomEnd(w', c, x);
    assert ClientEnd(w', c, x);
    assert GoodParam(w', c, x);
  }

  lemma ReadTaken(cfg: R.Config, c: R.ClientId, w: World, w': World, s: nat)
    requires Inv(cfg, c, w) && Enabled(c, w, Read(s))
    requires w' == ReadMessage(w, s, w.client.sockets[s].sent[w.seen[s]])
    ensures w'.roomGot == TakenAll(w', SocksOf(w.room, c))
  {
    var m := w.client.sockets[s].sent[w.seen[s]];
    if Accepts(w.room, s) && m.reliable {
      AcceptedIsCurrent(cfg, c, w, s);
      WithinDistinct(SocksOf(w.room, c), w.client.socks);
      TakenAllLast(w, w', SocksOf(w.room, c), m);
    } else {
      TakenAllFrame(w, w', SocksOf(w.room, c));
    }
  }

  lemma ReadShape(w: World, w': World, s: nat, m: C.Message)
    requires s in w.seen && s in w.taken && s in w.room.ws && w' == ReadMessage(w, s, m)
    ensures w' == w.(seen := w'.seen, taken := w'.taken, roomGot := w'.roomGot)
  {
  }

  lemma ReadKeeps(cfg: R.Config, c: R.ClientId, w: World, w': World, s: nat)
    requires Inv(cfg, c, w) && Enabled(c, w, Read(s))
    requires w' == ReadMessage(w, s, w.client.sockets[s].sent[w.seen[s]])
    ensures Inv(cfg, c, w')
  {
    ReadShape(w, w', s, w.client.sockets[s].sent[w.seen[s]]);
    assert Link(w, c, s);
    forall x | x in w.client.sockets ensures Link(w', c, x) && HeardOn(w', x) == HeardOn(w, x) {
      assert Link(w, c, x);
      ReadLink(c, w, w', s, x);
    }
    HeardAllFrame(w, w', w.client.socks);
    ReadTaken(cfg, c, w, w', s);
    assert GoodToken(w', c) && Opened(w', c);
  }

  // --- runs ---

  lemma HearKeeps(cfg: R.Config, c: R.ClientId, w: World, w': World, s: nat)
    requires Inv(cfg, c, w) && Enabled(c, w, Hear(s)) && w' == HearFrame(w, s, w.room.ws[s].wire[w.heard[s]])
    ensures Inv(cfg, c, w')
  {
    match w.room.ws[s].wire[w.heard[s]]
    case User(_, _) => HearUserKeeps(cfg, c, w, w', s);
    case Session(_, _) => HearSessionKeeps(cfg, c, w, w', s);
    case AuthError(_) => HearErrorKeeps(cfg, c, w, w', s);
  }

  /** Every step of the pair keeps the invariant. */
  lemma StepKeeps(cfg: R.Config, c: R.ClientId, w: World, e: Event)
    requires Inv(cfg, c, w) && R.Grounded(w.room) && Enabled(c, w, e)
    ensures Inv(cfg, c, Step(cfg, c, w, e))
  {
    var w' := Step(cfg, c, w, e);
    match e
    case Room(x) => RoomKeeps(cfg, c, w, x);
    case Client(k) => if k.EvBackoff? { MakeKeeps(cfg, c, w, w', k.s); } else { ClientKeeps(cfg, c, w, w', k); }
    case Arrive(s, token) => ArriveKeeps(cfg, c, w, s, token);
    case Hear(s) => HearKeeps(cfg, c, w, w', s);
    case Read(s) => ReadKeeps(cfg, c, w, w', s);
  }

  ghost predicate Reaches(cfg: R.Config, c: R.ClientId, w: World, es: seq<Event>, w': World)
    decreases |es|
  {
    if es == [] then w == w'
    else R.Grounded(w.room) && Enabled(c, w, es[0]) && Reaches(cfg, c, Step(cfg, c, w, es[0]), es[1..], w')
  }

  lemma {:induction false} RunKeeps(cfg: R.Config, c: R.ClientId, w: World, es: seq<Event>, w': World)
    requires Inv(cfg, c, w) && Reaches(cfg, c, w, es, w')
    ensures Inv(cfg, c, w')
    decreases |es|
  {
    if es != [] {
      StepKeeps(cfg, c, w, es[0]);
      RunKeeps(cfg, c, Step(cfg, c, w, es[0]), es[1..], w');
    }
  }

  lemma StartInv(cfg: R.Config, c: R.ClientId, s0: nat)
    ensures Inv(cfg, c, Start(s0))
  {
    var w := Start(s0);
    CP.InitInv(s0);
    assert w.client.socks[..0] == [];
    assert HeardAll(w, w.client.socks) == HeardAll(w, []) + HeardOn(w, s0) == [];
    P.PrefixIsPart<C.Message>([], []);
    assert Link(w, c, s0);
  }

  lemma ReachableInv(cfg: R.Config, c: R.ClientId, s0: nat, es: seq<Event>, w: World)
    requires Reaches(cfg, c, Start(s0), es, w)
    ensures Inv(cfg, c, w)
  {
    StartInv(cfg, c, s0);
    RunKeeps(cfg, c, Start(s0), es, w);
  }

  // --- the promises ---

  lemma {:induction false} RelOfPrefix(frames: seq<R.Frame>, n: nat)
    requires n <= |frames|
    ensures RI.Rel(frames[..n]) <= RI.Rel(frames)
    decreases |frames|
  {
    if n < |frames| {
      var k := |frames| - 1;
      RelOfPrefix(frames[..k], n);
      assert frames[..k][..n] == frames[..n];
    } else {
      assert frames[..n] == frames;
    }
  }

  lemma {:induction false} SentOfPrefix(sent: seq<C.Message>, n: nat)
    requires n <= |sent|
    ensures CP.Rel(sent[..n]) <= CP.Rel(sent)
    decreases |sent|
  {
    if n < |sent| {
      var k := |sent| - 1;
      SentOfPrefix(sent[..k], n);
      assert sent[..k][..n] == sent[..n];
    } else {
      assert sent[..n] == sent;
    }
  }

  /** Sockets the client was never on add nothing. */
  lemma {:induction false} OnlyItsSocks(w: World, a: seq<nat>, b: seq<nat>)
    requires Within(a, b) && CP.Distinct(b)
    requires forall s :: s in b && s !in a ==> HeardOn(w, s) == [] && TakenOn(w, s) == []
    ensures HeardAll(w, b) == HeardAll(w, a) && TakenAll(w, b) == TakenAll(w, a)
    decreases |b|
  {
    if b != [] {
      var n := |b| - 1;
      if a != [] && a[|a| - 1] == b[n] {
        OnlyItsSocks(w, a[..|a| - 1], b[..n]);
      } else {
        if b[n] in a { WithinHas(a, b[..n], b[n]); }
        OnlyItsSocks(w, a, b[..n]);
      }
    }
  }

  lemma HeardOnIsPrefix(w: World, s: nat)
    requires s in w.room.ws
    ensures HeardOn(w, s) <= RI.Handed(w.room.ws[s])
  {
    if s in w.heard && w.heard[s] <= |w.room.ws[s].wire| { RelOfPrefix(w.room.ws[s].wire, w.heard[s]); }
  }

  /** The client has heard all that these sockets were handed. */
  ghost predicate AllHeard(w: World, socks: seq<nat>)
    requires forall s :: s in socks ==> s in w.room.ws
  {
    forall s :: s in socks ==> HeardOn(w, s) == RI.Handed(w.room.ws[s])
  }

  lemma AllHeardLast(w: World, socks: seq<nat>)
    requires socks != [] && forall s :: s in socks ==> s in w.room.ws
    ensures var n := |socks| - 1;
      AllHeard(w, socks) <==> AllHeard(w, socks[..n]) && HeardOn(w, socks[n]) == RI.Handed(w.room.ws[socks[n]])
  {
    assert forall s :: s in socks <==> s in socks[..|socks| - 1] || s == socks[|socks| - 1];
  }

  lemma {:induction false} HeardIsPart(w: World, socks: seq<nat>)
    requires forall s :: s in socks ==> s in w.room.ws
    ensures P.PartOf(HeardAll(w, socks), RI.HandedAll(socks, w.room.ws))
    ensures |HeardAll(w, socks)| <= |RI.HandedAll(socks, w.room.ws)|
    ensures |HeardAll(w, socks)| == |RI.HandedAll(socks, w.room.ws)| <==> AllHeard(w, socks)
    decreases |socks|
  {
    if socks == [] {
      P.PrefixIsPart(HeardAll(w, socks), RI.HandedAll(socks, w.room.ws));
    } else {
      var n := |socks| - 1;
      var x := socks[n];
      HeardIsPart(w, socks[..n]);
      HeardOnIsPrefix(w, x);
      P.PrefixIsPart(HeardOn(w, x), RI.Handed(w.room.ws[x]));
      P.PartsConcat(HeardAll(w, socks[..n]), RI.HandedAll(socks[..n], w.room.ws), HeardOn(w, x),
        RI.Handed(w.room.ws[x]));
      AllHeardLast(w, socks);
    }
  }

  /** The room has all the reliable messages that were put on these sockets. */
  ghost predicate AllTaken(w: World, socks: seq<nat>)
    requires CP.Known(socks, w.client.sockets)
  {
    forall i {:trigger socks[i]} :: 0 <= i < |socks| ==> TakenOn(w, socks[i]) == CP.Rel(w.client.sockets[socks[i]].sent)
  }

  lemma AllTakenLast(w: World, socks: seq<nat>)
    requires socks != [] && CP.Known(socks, w.client.sockets)
    ensures var n := |socks| - 1;
      AllTaken(w, socks) <==>
      AllTaken(w, socks[..n]) && TakenOn(w, socks[n]) == CP.Rel(w.client.sockets[socks[n]].sent)
  {
    var n := |socks| - 1;
    if AllTaken(w, socks) {
      forall i | 0 <= i < n ensures TakenOn(w, socks[..n][i]) == CP.Rel(w.client.sockets[socks[..n][i]].sent) {
        assert socks[..n][i] == socks[i];
      }
    }
    if AllTaken(w, socks[..n]) {
      forall i | 0 <= i < n ensures TakenOn(w, socks[i]) == CP.Rel(w.client.sockets[socks[i]].sent) {
        assert socks[..n][i] == socks[i];
      }
    }
  }

  lemma TakenOnIsPart(w: World, c: R.ClientId, s: nat)
    requires s in w.client.sockets && Link(w, c, s)
    ensures var sent := w.client.sockets[s].sent;
      && P.PartOf(TakenOn(w, s), CP.Rel(sent)) && |TakenOn(w, s)| <= |CP.Rel(sent)|
      && (|TakenOn(w, s)| == |CP.Rel(sent)| <==> TakenOn(w, s) == CP.Rel(sent))
  {
    var sent := w.client.sockets[s].sent;
    SentOfPrefix(sent, w.seen[s]);
    P.PartOfLonger(w.taken[s], CP.Rel(sent[..w.seen[s]]), CP.Rel(sent));
    P.PartIsNoLonger(w.taken[s], CP.Rel(sent));
    if |w.taken[s]| == |CP.Rel(sent)| { P.PartOfSameLength(w.taken[s], CP.Rel(sent)); }
  }

  lemma {:induction false} TakenIsPart(w: World, c: R.ClientId, socks: seq<nat>)
    requires CP.Known(socks, w.client.sockets)
    requires forall i :: 0 <= i < |socks| ==> Link(w, c, socks[i])
    ensures P.PartOf(TakenAll(w, socks), CP.HandedAll(socks, w.client.sockets))
    ensures |TakenAll(w, socks)| <= |CP.HandedAll(socks, w.client.sockets)|
    ensures |TakenAll(w, socks)| == |CP.HandedAll(socks, w.client.sockets)| <==> AllTaken(w, socks)
    decreases |socks|
  {
    if socks == [] {
      P.PrefixIsPart(TakenAll(w, socks), CP.HandedAll(socks, w.client.sockets));
    } else {
      var n := |socks| - 1;
      var sent := w.client.sockets[socks[n]].sent;
      TakenIsPart(w, c, socks[..n]);
      assert Link(w, c, socks[n]);
      TakenOnIsPart(w, c, socks[n]);
      P.PartsConcat(TakenAll(w, socks[..n]), CP.HandedAll(socks[..n], w.client.sockets), TakenOn(w, socks[n]),
        CP.Rel(sent));
      AllTakenLast(w, socks);
    }
  }

  /** On a stray socket nothing reliable goes either way. */
  lemma StraysAreEmpty(cfg: R.Config, c: R.ClientId, w: World)
    requires Inv(cfg, c, w)
    ensures HeardAll(w, w.client.socks) == HeardAll(w, SocksOf(w.room, c))
    ensures TakenAll(w, w.client.socks) == TakenAll(w, SocksOf(w.room, c))
  {
    forall s | s in w.client.socks && s !in SocksOf(w.room, c) ensures HeardOn(w, s) == [] && TakenOn(w, s) == [] {
      assert Link(w, c, s);
      NothingTaken(w, c, s);
      if s in w.room.ws { HeardOnIsPrefix(w, s); }
    }
    OnlyItsSocks(w, SocksOf(w.room, c), w.client.socks);
  }

  /** However the requests that open a client's sockets overtake each other on
      their way, the room puts the client on sockets in the order it made them. */
  lemma SocksInOrder(cfg: R.Config, c: R.ClientId, s0: nat, es: seq<Event>, w: World)
    requires Reaches(cfg, c, Start(s0), es, w) && c in w.room.records
    ensures Within(w.room.records[c].socks, w.client.socks) && CP.Distinct(w.client.socks)
  {
    ReachableInv(cfg, c, s0, es, w);
  }

  /** In every run of the pair, whatever the sockets lose or delay: the app gets
      the reliable messages addressed to its client in order, none twice, also
      after the client has left. While it is tracked, those the app has and those
      still buffered are all of them exactly when the app has got all that each
      of its sockets was handed. */
  lemma RoomToApp(cfg: R.Config, c: R.ClientId, s0: nat, es: seq<Event>, w: World)
    requires Reaches(cfg, c, Start(s0), es, w)
    ensures c !in w.room.records ==> w.got == []
    ensures c in w.room.records ==>
      P.PartOf(w.got, w.room.records[c].addressed) && forall s :: s in w.room.records[c].socks ==> s in w.room.ws
    ensures c in w.room.clients && c in w.room.records ==>
      (w.got + w.room.records[c].buffer == w.room.records[c].addressed <==> AllHeard(w, w.room.records[c].socks))
  {
    ReachableInv(cfg, c, s0, es, w);
    StraysAreEmpty(cfg, c, w);
    if c in w.room.records {
      var r := w.room.records[c];
      assert RI.GoodClient(cfg, w.room, c);
      HeardIsPart(w, r.socks);
      var handed := RI.HandedAll(r.socks, w.room.ws);
      P.PartOfLonger(w.got, handed, r.addressed);
      if |w.got| == |handed| { P.PartOfSameLength(w.got, handed); }
    }
  }

  /** The mirror statement: the room's code gets what the app sent in order, none
      twice, and all of it but what is still buffered exactly when each socket's
      messages were all accepted. */
  lemma AppToRoom(cfg: R.Config, c: R.ClientId, s0: nat, es: seq<Event>, w: World)
    requires Reaches(cfg, c, Start(s0), es, w) && w.client.state != C.Closed
    ensures P.PartOf(w.roomGot, w.client.accepted) && CP.Known(w.client.socks, w.client.sockets)
    ensures w.roomGot + w.client.buffer == w.client.accepted <==> AllTaken(w, w.client.socks)
  {
    ReachableInv(cfg, c, s0, es, w);
    StraysAreEmpty(cfg, c, w);
    forall i | 0 <= i < |w.client.socks|
      ensures Link(w, c, w.client.socks[i])
    {
      assert w.client.socks[i] in w.client.socks;
    }
    TakenIsPart(w, c, w.client.socks);
    var handed := CP.HandedAll(w.client.socks, w.client.sockets);
    P.PartOfLonger(w.roomGot, handed, w.client.accepted);
    if |w.roomGot| == |handed| { P.PartOfSameLength(w.roomGot, handed); }
  }
}