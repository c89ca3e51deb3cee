/** What gets through between a client and its room, step by step, and how a
    connection that was lost comes back. */
module JointHeals {
  import opened Prelude
  import R = RoomSpec
  import RI = RoomInvariant
  import RO = RoomOutcomes
  import C = ClientSpec
  import CP = ClientProofs
  import opened JointRun
  import opened JointProofs

  predicate OnSocket(w: World, c: R.ClientId, s: nat) {
    c in w.room.clients && c in w.room.records && w.room.records[c].socket == Some(s)
  }

  /** The room's code gets a message that arrives iff it came on the socket that the
      client is on just then. */
  lemma ReadIsTakenIff(cfg: R.Config, c: R.ClientId, s0: nat, es: seq<Event>, w: World, s: nat)
    requires Reaches(cfg, c, Start(s0), es, w) && R.Grounded(w.room) && Enabled(c, w, Read(s))
    ensures var m := w.client.sockets[s].sent[w.seen[s]]; var w' := Step(cfg, c, w, Read(s));
      && w'.roomGot == w.roomGot + (if OnSocket(w, c, s) && m.reliable then [m] else [])
      && w'.seen == w.seen[s := w.seen[s] + 1] && w'.client == w.client && w'.room == w.room
  {
    ReachableInv(cfg, c, s0, es, w);
    AcceptsIff(cfg, c, w, s);
    ReadOutcome(w, s, w.client.sockets[s].sent[w.seen[s]], Step(cfg, c, w, Read(s)));
  }

  lemma ReadOutcome(w: World, s: nat, m: C.Message, w': World)
    requires s in w.seen && s in w.taken && s in w.room.ws && w' == ReadMessage(w, s, m)
    ensures w'.roomGot == w.roomGot + (if Accepts(w.room, s) && m.reliable then [m] else [])
    ensures w'.seen == w.seen[s := w.seen[s] + 1] && w'.client == w.client && w'.room == w.room
  {
  }

  lemma AcceptsIff(cfg: R.Config, c: R.ClientId, w: World, s: nat)
    requires Inv(cfg, c, w) && s in w.client.sockets && s in w.room.ws
    ensures Accepts(w.room, s) <==> OnSocket(w, c, s)
  {
    if Accepts(w.room, s) { AcceptedIsOn(cfg, c, w, s); }
    if OnSocket(w, c, s) { OnIsAccepted(cfg, c, w.room, s); }
  }

  lemma AcceptedIsOn(cfg: R.Config, c: R.ClientId, w: World, s: nat)
    requires Inv(cfg, c, w) && s in w.client.sockets && s in w.room.ws && Accepts(w.room, s)
    ensures OnSocket(w, c, s)
  {
    assert Link(w, c, s);
    assert RI.GoodClient(cfg, w.room, w.room.ws[s].owner);
  }

  lemma OnIsAccepted(cfg: R.Config, c: R.ClientId, room: R.World, s: nat)
    requires RI.Inv(cfg, room) && c in room.clients && c in room.records && room.records[c].socket == Some(s)
    ensures s in room.ws && Accepts(room, s)
  {
    assert RI.GoodClient(cfg, room, c) && RI.GoodSock(room, s);
  }

  /** The app gets a reliable message that it hears, as it was sent. */
  lemma MessageIsGot(cfg: R.Config, c: R.ClientId, w: World, s: nat, p: R.Bytes)
    requires R.Grounded(w.room) && Enabled(c, w, Hear(s)) && w.room.ws[s].wire[w.heard[s]] == R.User(p, true)
    ensures var w' := Step(cfg, c, w, Hear(s));
      w' == w.(got := w.got + [p], heard := w.heard[s := w.heard[s] + 1])
  {
  }

  /** A session that a client hears opens it on that socket, with that token. */
  lemma SessionIsHeard(cfg: R.Config, c: R.ClientId, w: World, s: nat, t: R.Token, id: R.ClientId)
    requires Inv(cfg, c, w) && R.Grounded(w.room) && Enabled(c, w, Hear(s)) && w.client.state != C.Closed
    requires w.room.ws[s].wire[w.heard[s]] == R.Session(t, id)
    ensures var w' := Step(cfg, c, w, Hear(s));
      && w'.client.state == C.Open && w'.client.ws == Some(s) && w'.token == Some(t) && w'.got == w.got
      && w'.room == w.room && w'.heard == w.heard[s := w.heard[s] + 1]
  {
    assert CP.Attached(w.client, s);
  }

  // --- a lost connection comes back ---

  /** The client waits for its next attempt, with the token of the seat that is held
      for it; the room still runs. */
  predicate Lost(w: World, c: R.ClientId) {
    && w.client.state == C.Reconnecting && w.client.backoffTimer
    && R.Waiting(w.room, c) && w.token == Some(w.room.records[c].token) && !w.room.stopped
  }

  /** Socket and token are new to both sides. */
  predicate Fresh(w: World, s: nat, token: R.Token) {
    && s !in w.client.sockets && s !in w.room.ws
    && token !in w.room.issued && token !in w.room.records && token !in w.room.pending.Values
  }

  /** The request of the attempt on socket s is on its way, with the seat's token. */
  ghost predicate OnItsWay(w: World, c: R.ClientId, s: nat) {
    && R.Waiting(w.room, c) && !w.room.stopped && s !in w.room.ws
    && w.client.state == C.Reconnecting && w.client.ws == Some(s) && CP.Attached(w.client, s)
    && w.client.sockets[s].isReconnect && w.client.sockets[s].sent == []
    && s in w.params && w.params[s] == w.room.records[c].token && s in w.heard && w.heard[s] == 0
  }

  lemma AttemptIsMade(cfg: R.Config, c: R.ClientId, w: World, s: nat, token: R.Token) returns (w': World)
    requires Inv(cfg, c, w) && R.Grounded(w.room) && Lost(w, c) && Fresh(w, s, token)
    ensures Enabled(c, w, Client(C.EvBackoff(s))) && w' == Step(cfg, c, w, Client(C.EvBackoff(s)))
    ensures Inv(cfg, c, w') && OnItsWay(w', c, s)
    ensures w'.room == w.room && w'.got == w.got && w'.client.buffer == w.client.buffer
  {
    w' := Step(cfg, c, w, Client(C.EvBackoff(s)));
    StepKeeps(cfg, c, w, Client(C.EvBackoff(s)));
  }

  lemma ArriveIsEnabled(cfg: R.Config, c: R.ClientId, w: World, s: nat, token: R.Token)
    requires Inv(cfg, c, w) && R.Waiting(w.room, c) && !w.room.stopped
    requires s in w.client.sockets && w.client.sockets[s].isReconnect && s !in w.room.ws
    requires s in w.params && w.params[s] == w.room.records[c].token
    requires token !in w.room.issued && token !in w.room.records && token !in w.room.pending.Values
    ensures Enabled(c, w, Arrive(s, token)) && R.Resolve(w.room, w.room.records[c].token) == c
  {
    assert RI.GoodClient(cfg, w.room, c);
    forall x | x in w.room.pending ensures w.room.pending[x] != c { assert RI.GoodSock(w.room, x); }
  }

  /** It reaches the room, which takes the client back. */
  lemma AttemptArrives(cfg: R.Config, c: R.ClientId, w: World, s: nat, token: R.Token, w': World)
    requires Inv(cfg, c, w) && R.Grounded(w.room) && R.Waiting(w.room, c) && s !in w.room.ws
    requires s in w.client.sockets && w.client.sockets[s].isReconnect
    requires s in w.params && w.params[s] == w.room.records[c].token
    requires R.Resolve(w.room, w.room.records[c].token) == c
    requires Enabled(c, w, Arrive(s, token)) && w' == Step(cfg, c, w, Arrive(s, token))
    ensures w' == w.(room := w'.room) && RO.Back(w.room, w'.room, c, s, token)
  {
    RO.ResumeIsBack(cfg, w.room, w'.room, c, s, token);
  }

  /** What the room has sent on a socket that the client came back on. */
  ghost predicate Sent(w: World, c: R.ClientId, s: nat, buffer: seq<R.Bytes>, token: R.Token) {
    && s in w.room.ws && s in w.heard && s in w.client.sockets && CP.Attached(w.client, s)
    && w.room.ws[s].wire == R.Frames(buffer) + [R.Session(token, c)]
    && w.client.state == C.Reconnecting && w.client.ws == Some(s)
  }

  /** The client has heard it all. */
  predicate HeardOut(w: World, c: R.ClientId, s: nat, more: seq<R.Bytes>, token: R.Token, w': World) {
    && w'.room == w.room && w'.client.state == C.Open && w'.client.ws == Some(s) && w'.token == Some(token)
    && w'.got == w.got + more && s in w'.client.sockets && s in w.client.sockets
    && w'.client.sockets[s].sent == w.client.sockets[s].sent + w.client.buffer
  }

  lemma Grounding(cfg: R.Config, c: R.ClientId, w: World)
    requires Inv(cfg, c, w)
    ensures R.Grounded(w.room)
  {
    RI.InvIsGrounded(cfg, w.room);
  }

  lemma LastIsHeard(cfg: R.Config, c: R.ClientId, w: World, s: nat, buffer: seq<R.Bytes>, token: R.Token)
    returns (w': World)
    requires Inv(cfg, c, w) && R.Grounded(w.room) && Sent(w, c, s, buffer, token) && w.heard[s] == |buffer|
    ensures Reaches(cfg, c, w, [Hear(s)], w') && HeardOut(w, c, s, [], token, w')
  {
    assert [Hear(s)][1..] == [];
    assert w.room.ws[s].wire[|buffer|] == R.Session(token, c);
    w' := Step(cfg, c, w, Hear(s));
    SessionIsHeard(cfg, c, w, s, token, c);
    assert CP.Attached(w.client, s);
  }

  lemma NextIsHeard(cfg: R.Config, c: R.ClientId, w: World, s: nat, buffer: seq<R.Bytes>, token: R.Token)
    returns (w': World)
    requires Inv(cfg, c, w) && R.Grounded(w.room) && Sent(w, c, s, buffer, token) && w.heard[s] < |buffer|
    ensures Enabled(c, w, Hear(s)) && w' == Step(cfg, c, w, Hear(s)) && Inv(cfg, c, w') && Sent(w', c, s, buffer, token)
    ensures w' == w.(got := w.got + [buffer[w.heard[s]]], heard := w.heard[s := w.heard[s] + 1])
  {
    assert w.room.ws[s].wire[w.heard[s]] == R.User(buffer[w.heard[s]], true);
    w' := Step(cfg, c, w, Hear(s));
    MessageIsGot(cfg, c, w, s, buffer[w.heard[s]]);
    StepKeeps(cfg, c, w, Hear(s));
  }

  lemma RestOf(buffer: seq<R.Bytes>, n: nat)
    requires n < |buffer|
    ensures [buffer[n]] + buffer[n + 1..] == buffer[n..]
  {
  }

  lemma HeardMore(w: World, c: R.ClientId, s: nat, p: R.Bytes, more: seq<R.Bytes>, token: R.Token, w1: World, w': World)
    requires s in w.heard && w1 == w.(got := w.got + [p], heard := w.heard[s := w.heard[s] + 1])
    requires HeardOut(w1, c, s, more, token, w')
    ensures HeardOut(w, c, s, [p] + more, token, w')
  {
    assert w.got + [p] + more == w.got + ([p] + more);
  }

  /** The steps that an attempt on socket s takes. */
  predicate OfAttempt(e: Event, s: nat, token: R.Token) {
    e == Client(C.EvBackoff(s)) || e == Arrive(s, token) || e == Hear(s)
  }

  predicate AllOf(es: seq<Event>, s: nat, token: R.Token) { forall e <- es :: OfAttempt(e, s, token) }

  lemma OneMoreStep(cfg: R.Config, c: R.ClientId, w: World, e: Event, es: seq<Event>, w': World)
    requires R.Grounded(w.room) && Enabled(c, w, e) && Reaches(cfg, c, Step(cfg, c, w, e), es, w')
    ensures Reaches(cfg, c, w, [e] + es, w')
  {
    assert ([e] + es)[1..] == es;
  }

  /** Frame by frame the client takes everything that was kept for it, then opens. */
  lemma {:induction false} HearRest(cfg: R.Config, c: R.ClientId, w: World, s: nat, buffer: seq<R.Bytes>,
                                    token: R.Token) returns (es: seq<Event>, w': World)
    requires Inv(cfg, c, w) && Sent(w, c, s, buffer, token) && w.heard[s] <= |buffer|
    ensures Reaches(cfg, c, w, es, w') && HeardOut(w, c, s, buffer[w.heard[s]..], token, w')
    ensures AllOf(es, s, token)
    decreases |buffer| - w.heard[s]
  {
    Grounding(cfg, c, w);
    var n := w.heard[s];
    if n == |buffer| {
      w' := LastIsHeard(cfg, c, w, s, buffer, token);
      es := [Hear(s)];
      assert buffer[n..] == [];
    } else {
      var w1 := NextIsHeard(cfg, c, w, s, buffer, token);
      es, w' := HearRest(cfg, c, w1, s, buffer, token);
      RestOf(buffer, n);
      HeardMore(w, c, s, buffer[n], buffer[n + 1..], token, w1, w');
      OneMoreStep(cfg, c, w, Hear(s), es, w');
      es := [Hear(s)] + es;
    }
  }

  /** The connection is up again on socket s: both sides agree on it and on the token,
      the app has got what was kept for it, and the socket carries what the app had
      sent meanwhile. */
  predicate Healed(w: World, c: R.ClientId, s: nat, token: R.Token, w': World)
    requires c in w.room.records
  {
    && w'.client.state == C.Open && w'.client.ws == Some(s) && w'.token == Some(token)
    && OnSocket(w', c, s) && w'.room.records[c].token == token && w'.room.records[c].buffer == []
    && w'.got == w.got + w.room.records[c].buffer
    && s in w'.client.sockets && w'.client.sockets[s].sent == w.client.buffer
  }

  /** From every reachable state in which a connection is lost but its seat is held,
      it can come back: the next attempt, its request and the frames the room sends
      suffice, and nothing that was kept on either side is missing; if the app had
      heard its earlier sockets out, it then has all that was ever addressed to it. */
  lemma LostConnectionHeals(cfg: R.Config, c: R.ClientId, s0: nat, es: seq<Event>, w: World, s: nat, token: R.Token)
    returns (more: seq<Event>, w': World)
    requires Reaches(cfg, c, Start(s0), es, w) && Lost(w, c) && Fresh(w, s, token)
    ensures Reaches(cfg, c, w, more, w') && Healed(w, c, s, token, w')
    ensures AllOf(more, s, token)
    ensures (forall x :: x in w.room.records[c].socks ==> x in w.room.ws)
      && (AllHeard(w, w.room.records[c].socks) ==> w'.got == w.room.records[c].addressed)
  {
    ReachableInv(cfg, c, s0, es, w);
    more, w' := HealsFrom(cfg, c, w, s, token);
    RoomToApp(cfg, c, s0, es, w);
  }

  lemma HealsFrom(cfg: R.Config, c: R.ClientId, w: World, s: nat, token: R.Token)
    returns (more: seq<Event>, w': World)
    requires Inv(cfg, c, w) && Lost(w, c) && Fresh(w, s, token)
    ensures Reaches(cfg, c, w, more, w') && Healed(w, c, s, token, w') && AllOf(more, s, token)
  {
    Grounding(cfg, c, w);
    var w1 := AttemptIsMade(cfg, c, w, s, token);
    more, w' := Answered(cfg, c, w1, s, token);
    OneMoreStep(cfg, c, w, Client(C.EvBackoff(s)), more, w');
    more := [Client(C.EvBackoff(s))] + more;
  }

  /** The request arrives, and the client hears the answer out. */
  lemma Answered(cfg: R.Config, c: R.ClientId, w: World, s: nat, token: R.Token)
    returns (more: seq<Event>, w': World)
    requires Inv(cfg, c, w) && OnItsWay(w, c, s)
    requires token !in w.room.issued && token !in w.room.records && token !in w.room.pending.Values
    ensures Reaches(cfg, c, w, more, w') && Healed(w, c, s, token, w')
    ensures AllOf(more, s, token)
  {
    Grounding(cfg, c, w);
    var buffer := w.room.records[c].buffer;
    var w1 := Arrived(cfg, c, w, s, token);
    more, w' := HearRest(cfg, c, w1, s, buffer, token);
    OneMoreStep(cfg, c, w, Arrive(s, token), more, w');
    more := [Arrive(s, token)] + more;
  }

  lemma Arrived(cfg: R.Config, c: R.ClientId, w: World, s: nat, token: R.Token) returns (w': World)
    requires Inv(cfg, c, w) && R.Grounded(w.room) && OnItsWay(w, c, s)
    requires token !in w.room.issued && token !in w.room.records && token !in w.room.pending.Values
    ensures Enabled(c, w, Arrive(s, token)) && w' == Step(cfg, c, w, Arrive(s, token)) && Inv(cfg, c, w')
    ensures w' == w.(room := w'.room) && RO.Back(w.room, w'.room, c, s, token)
    ensures Sent(w', c, s, w.room.records[c].buffer, token)
  {
    ArriveIsEnabled(cfg, c, w, s, token);
    w' := Step(cfg, c, w, Arrive(s, token));
    AttemptArrives(cfg, c, w, s, token, w');
    StepKeeps(cfg, c, w, Arrive(s, token));
  }
}
