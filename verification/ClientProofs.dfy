/** What the client's connection machine keeps over every run. */
module ClientProofs {
  import opened Prelude
  import opened ClientSpec

  ghost function Sum(buffer: seq<Message>): nat {
    if buffer == [] then 0 else Sum(buffer[..|buffer| - 1]) + buffer[|buffer| - 1].byteSize
  }

  ghost function Rel(sent: seq<Message>): seq<Message> {
    if sent == [] then []
    else Rel(sent[..|sent| - 1]) + if sent[|sent| - 1].reliable then [sent[|sent| - 1]] else []
  }

  ghost predicate Known(socks: seq<Sock>, sockets: map<Sock, Ws>) {
    forall i :: 0 <= i < |socks| ==> socks[i] in sockets
  }

  ghost predicate AllReliable(ms: seq<Message>) {
    forall i :: 0 <= i < |ms| ==> ms[i].reliable
  }

  /** The reliable messages handed to successive sockets. */
  ghost function HandedAll(socks: seq<Sock>, sockets: map<Sock, Ws>): seq<Message>
    requires Known(socks, sockets)
  {
    if socks == [] then []
    else HandedAll(socks[..|socks| - 1], sockets) + Rel(sockets[socks[|socks| - 1]].sent)
  }

  lemma {:induction false} RelConcat(a: seq<Message>, b: seq<Message>)
    ensures Rel(a + b) == Rel(a) + Rel(b)
    decreases |b|
  {
    if b == [] {
      assert a + b == a;
    } else {
      var n := |b| - 1;
      RelConcat(a, b[..n]);
      assert (a + b)[..|a| + n] == a + b[..n];
    }
  }

  lemma {:induction false} RelOfReliable(ms: seq<Message>)
    requires AllReliable(ms)
    ensures Rel(ms) == ms
    decreases |ms|
  {
    if ms != [] {
      RelOfReliable(ms[..|ms| - 1]);
      assert ms == ms[..|ms| - 1] + [ms[|ms| - 1]];
    }
  }

  lemma {:induction false} HandedFrame(socks: seq<Sock>, a: map<Sock, Ws>, b: map<Sock, Ws>)
    requires Known(socks, a) && Known(socks, b)
    requires forall i :: 0 <= i < |socks| ==> a[socks[i]].sent == b[socks[i]].sent
    ensures HandedAll(socks, a) == HandedAll(socks, b)
    decreases |socks|
  {
    if socks != [] { HandedFrame(socks[..|socks| - 1], a, b); }
  }

  lemma HandedLast(socks: seq<Sock>, s: Sock, sockets: map<Sock, Ws>)
    requires s in sockets && Known(socks, sockets)
    ensures Known(socks + [s], sockets)
    ensures HandedAll(socks + [s], sockets) == HandedAll(socks, sockets) + Rel(sockets[s].sent)
  {
    assert (socks + [s])[..|socks|] == socks;
  }

  /** Pushing messages to the newest socket extends what was handed over. */
  lemma HandedAfterPush(socks: seq<Sock>, sockets: map<Sock, Ws>, s: Sock, ms: seq<Message>)
    requires Known(socks, sockets)
    requires |socks| > 0 && socks[|socks| - 1] == s && s !in socks[..|socks| - 1]
    ensures HandedAll(socks, sockets[s := Push(sockets[s], ms)]) == HandedAll(socks, sockets) + Rel(ms)
  {
    var before := socks[..|socks| - 1];
    assert socks == before + [s];
    HandedFrame(before, sockets, sockets[s := Push(sockets[s], ms)]);
    HandedLast(before, s, sockets);
    HandedLast(before, s, sockets[s := Push(sockets[s], ms)]);
    RelConcat(sockets[s].sent, ms);
  }

  lemma SumAppend(buffer: seq<Message>, m: Message)
    ensures Sum(buffer + [m]) == Sum(buffer) + m.byteSize
  {
    assert (buffer + [m])[..|buffer|] == buffer;
  }

  ghost predicate Distinct(socks: seq<Sock>) {
    forall i, j :: 0 <= i < j < |socks| ==> socks[i] != socks[j]
  }

  lemma DistinctLast(socks: seq<Sock>)
    requires Distinct(socks) && socks != []
    ensures socks[|socks| - 1] !in socks[..|socks| - 1]
  {
  }

  // --- the invariant ---

  predicate Attached(w: World, s: Sock) {
    s in w.sockets && w.sockets[s].live && w.sockets[s].wired
  }

  /** What holds while a drop is being handled: no socket, no timer. */
  ghost predicate Between(w: World) {
    && w.state == Reconnecting && w.hasToken && w.ws.None? && !w.backoffTimer && !w.uptimeTimer
    && w.retryCount == 0 && w.attempts == 0
    && (forall s :: s in w.sockets ==> !Attached(w, s))
  }

  ghost predicate GoodState(w: World) {
    match w.state
    case Connecting =>
      && w.ws.Some? && Attached(w, w.ws.value) && !w.sockets[w.ws.value].isReconnect
      && !w.backoffTimer && !w.uptimeTimer && w.retryCount == 0 && w.attempts == 0
    case Open =>
      && w.ws.Some? && Attached(w, w.ws.value) && w.hasToken && w.buffer == []
      && !w.backoffTimer && w.retryCount == 0 && w.attempts == 0
    case Reconnecting =>
      && w.hasToken && !w.uptimeTimer && 1 <= w.retryCount <= MAX_RECONNECT_ATTEMPTS
      // exactly one of a backoff timer or an attempt's socket is pending
      && (w.backoffTimer <==> !(w.ws.Some? && Attached(w, w.ws.value)))
      && (!w.backoffTimer ==> w.sockets[w.ws.value].isReconnect)
      && w.attempts == if w.backoffTimer then w.retryCount - 1 else w.retryCount
    case Closed =>
      && w.ws.None? && !w.backoffTimer && !w.uptimeTimer && w.buffer == []
  }

  /** Until the connection closes, only the current socket can still speak. */
  ghost predicate OneSpeaker(w: World) {
    w.state != Closed ==> forall s :: s in w.sockets && Attached(w, s) ==> w.ws == Some(s)
  }

  ghost predicate GoodBuffer(w: World) {
    && w.bufferBytes == Sum(w.buffer) && (w.state != Closed ==> w.bufferBytes <= MAX_BUFFER_BYTES)
    && AllReliable(w.buffer)
  }

  ghost predicate GoodSocks(w: World) {
    && Known(w.socks, w.sockets)
    && Distinct(w.socks)
    && (w.ws.Some? ==> |w.socks| > 0 && w.socks[|w.socks| - 1] == w.ws.value)
  }

  ghost predicate GoodHistory(w: World) {
    && w.closes == (if w.state == Closed then 1 else 0)
    && (w.state == Closed <==> w.cause.Some?)
    && (w.consentedClose || w.cause == Some(Consented) ==> w.closeCalled)
    && (w.cause == Some(Auth) ==> w.initialAuthFailed)
    && (w.cause == Some(ReconnectFailed) ==> w.attempts == MAX_RECONNECT_ATTEMPTS)
    && w.attempts <= MAX_RECONNECT_ATTEMPTS
  }

  /** Reliable messages handed over, then those buffered, are those accepted. */
  ghost predicate Fifo(w: World)
    requires GoodSocks(w)
  {
    w.state != Closed ==> HandedAll(w.socks, w.sockets) + w.buffer == w.accepted
  }

  ghost predicate Common(w: World) {
    && OneSpeaker(w) && GoodBuffer(w) && GoodSocks(w) && GoodHistory(w) && Fifo(w)
  }

  ghost predicate Inv(w: World) {
    GoodState(w) && Common(w)
  }

  // --- steps ---

  lemma ClosedKeeps(w: World, cause: Cause)
    requires Common(w) && w.state != Closed
    requires cause == Consented ==> w.closeCalled
    requires cause == Auth ==> w.initialAuthFailed
    requires cause == ReconnectFailed ==> w.attempts == MAX_RECONNECT_ATTEMPTS
    ensures Inv(EnterClosed(w, cause))
  {
  }

  lemma BufferedInOrder(handed: seq<Message>, buffer: seq<Message>, accepted: seq<Message>, m: Message)
    requires handed + buffer == accepted
    ensures handed + (buffer + [m]) == accepted + [m]
  {
  }

  /** One more buffered message, before the cap is looked at. */
  function Buffered(w: World, m: Message): World {
    w.(buffer := w.buffer + [m], bufferBytes := w.bufferBytes + m.byteSize, accepted := w.accepted + [m])
  }

  lemma BufferedKeepsOrder(w: World, m: Message)
    requires GoodSocks(w) && Fifo(w)
    ensures GoodSocks(Buffered(w, m)) && Fifo(Buffered(w, m))
  {
    if w.state != Closed {
      BufferedInOrder(HandedAll(w.socks, w.sockets), w.buffer, w.accepted, m);
    }
  }

  lemma SendBuffers(w: World, m: Message)
    requires (w.state == Connecting || w.state == Reconnecting) && m.reliable
    ensures Send(w, m) ==
      if w.bufferBytes + m.byteSize > MAX_BUFFER_BYTES then EnterClosed(Buffered(w, m), BufferOverflow)
      else Buffered(w, m)
  {
  }

  lemma OverflowKeeps(w: World)
    requires GoodSocks(w) && GoodHistory(w) && w.state != Closed
    ensures Inv(EnterClosed(w, BufferOverflow))
  {
  }

  lemma BufferedKeeps(w: World, m: Message)
    requires Common(w) && (w.state == Connecting || w.state == Reconnecting) && m.reliable
    requires w.bufferBytes + m.byteSize <= MAX_BUFFER_BYTES
    ensures Common(Buffered(w, m))
  {
    BufferedKeepsOrder(w, m);
    SumAppend(w.buffer, m);
  }

  lemma BufferKeeps(w: World, m: Message)
    requires Common(w) && (w.state == Connecting || w.state == Reconnecting) && m.reliable
    ensures var w' := Send(w, m);
      if w'.state == Closed then Inv(w') else Common(w') && w' == Buffered(w, m)
  {
    SendBuffers(w, m);
    if w.bufferBytes + m.byteSize > MAX_BUFFER_BYTES {
      BufferedKeepsOrder(w, m);
      OverflowKeeps(Buffered(w, m));
    } else {
      BufferedKeeps(w, m);
    }
  }

  lemma RelOfOne(m: Message)
    ensures Rel([m]) == if m.reliable then [m] else []
  {
    assert [m][..0] == [];
  }

  lemma PushKeepsInOrder(socks: seq<Sock>, sockets: map<Sock, Ws>, s: Sock, accepted: seq<Message>, m: Message)
    requires Known(socks, sockets) && Distinct(socks) && socks != [] && socks[|socks| - 1] == s
    requires HandedAll(socks, sockets) + [] == accepted
    ensures Known(socks, sockets[s := Push(sockets[s], [m])])
    ensures HandedAll(socks, sockets[s := Push(sockets[s], [m])]) + [] ==
      if m.reliable then accepted + [m] else accepted
  {
    DistinctLast(socks);
    HandedAfterPush(socks, sockets, s, [m]);
    RelOfOne(m);
  }

  lemma SendOpenKeepsOrder(w: World, m: Message)
    requires GoodSocks(w) && Fifo(w) && w.state == Open && w.ws.Some? && w.ws.value in w.sockets && w.buffer == []
    ensures GoodSocks(Send(w, m)) && Fifo(Send(w, m))
  {
    PushKeepsInOrder(w.socks, w.sockets, w.ws.value, w.accepted, m);
  }

  lemma SendOpenKeeps(w: World, m: Message)
    requires Inv(w) && w.state == Open
    ensures Inv(Send(w, m))
  {
    SendOpenKeepsOrder(w, m);
  }

  lemma SendKeeps(w: World, m: Message)
    requires Inv(w)
    ensures Inv(Send(w, m))
  {
    if w.state == Open {
      SendOpenKeeps(w, m);
    } else if (w.state == Connecting || w.state == Reconnecting) && m.reliable {
      BufferKeeps(w, m);
    }
  }

  lemma DetachKeepsHanded(w: World, s: Sock)
    requires Known(w.socks, w.sockets)
    ensures Known(w.socks, Detach(w, s).sockets)
    ensures HandedAll(w.socks, Detach(w, s).sockets) == HandedAll(w.socks, w.sockets)
  {
    HandedFrame(w.socks, w.sockets, Detach(w, s).sockets);
  }

  lemma DetachKeepsSpeaker(w: World, s: Sock)
    requires OneSpeaker(w)
    ensures OneSpeaker(Detach(w, s))
  {
    forall x | x in Detach(w, s).sockets && Attached(Detach(w, s), x) ensures Attached(w, x) {}
  }

  lemma DetachKeepsOrder(w: World, s: Sock)
    requires Common(w)
    ensures Common(Detach(w, s))
  {
    DetachKeepsHanded(w, s);
    DetachKeepsSpeaker(w, s);
  }

  lemma CloseKeeps(w: World)
    requires Inv(w)
    ensures Inv(Close(w))
  {
    var w0 := w.(closeCalled := true);
    if w.state == Reconnecting || w.state == Connecting {
      if w.ws.Some? { DetachKeepsOrder(w0, w.ws.value); }
      ClosedKeeps(if w.ws.Some? then Detach(w0, w.ws.value) else w0, Consented);
    }
  }

  lemma SessionKeeps(w: World, s: Sock)
    requires Inv(w) && Enabled(w, EvSession(s))
    ensures Inv(OnSession(w, s))
  {
    if w.state == Connecting || w.state == Reconnecting {
      assert w.ws == Some(s);
      HandedAfterPush(w.socks, w.sockets, s, w.buffer);
      RelOfReliable(w.buffer);
    }
  }

  lemma AuthErrorKeeps(w: World, s: Sock)
    requires Inv(w) && Enabled(w, EvAuthError(s))
    ensures Inv(OnAuthError(w, s))
  {
    if w.sockets[s].isReconnect && w.state == Reconnecting { ClosedKeeps(w, SessionRejected); }
  }

  lemma {:induction false} CallsKeep(w: World, calls: seq<Call>)
    requires Between(w) && Common(w)
    ensures var w' := Calls(w, calls); (Between(w') && Common(w')) || (w'.state == Closed && Inv(w'))
    decreases |calls|
  {
    if calls != [] {
      CallsKeep(w, calls[..|calls| - 1]);
      var w1 := Calls(w, calls[..|calls| - 1]);
      match calls[|calls| - 1]
      case CallSend(m) => if w1.state == Reconnecting && m.reliable { BufferKeeps(w1, m); }
      case CallClose => if w1.state == Reconnecting { ClosedKeeps(w1.(closeCalled := true), Consented); }
    }
  }

  /** A socket's close event silences it and changes nothing else yet. */
  lemma SilencedKeeps(w: World, s: Sock)
    requires Common(w) && s in w.sockets
    ensures Common(w.(uptimeTimer := false, sockets := w.sockets[s := w.sockets[s].(live := false)]))
  {
    HandedFrame(w.socks, w.sockets, w.sockets[s := w.sockets[s].(live := false)]);
  }

  lemma DroppedKeeps(w: World, code: int, longUptime: bool, calls: seq<Call>)
    requires Common(w) && w.state == Open && w.hasToken && !w.backoffTimer && !w.uptimeTimer
    requires w.retryCount == 0 && w.attempts == 0 && forall s :: s in w.sockets ==> !Attached(w, s)
    ensures Inv(Dropped(w, code, longUptime, calls))
  {
    if code == CONSENTED {
      ClosedKeeps(w, if w.consentedClose then Consented else Server);
    } else {
      CallsKeep(w.(state := Reconnecting, ws := None), calls);
    }
  }

  lemma OnCloseKeeps(w: World, s: Sock, code: int, longUptime: bool, calls: seq<Call>)
    requires Inv(w) && Enabled(w, EvClose(s, code, longUptime, calls))
    ensures Inv(OnClose(w, s, code, longUptime, calls))
  {
    SilencedKeeps(w, s);
    var w1 := w.(uptimeTimer := false, sockets := w.sockets[s := w.sockets[s].(live := false)]);
    match w.state
    case Closed =>
    case Connecting => ClosedKeeps(w1, if w.initialAuthFailed then Auth else InitialConnectFailed);
    case Reconnecting => if w.retryCount >= MAX_RECONNECT_ATTEMPTS { ClosedKeeps(w1, ReconnectFailed); }
    case Open => DroppedKeeps(w1, code, longUptime, calls);
  }

  lemma NewSocketKeepsOrder(socks: seq<Sock>, sockets: map<Sock, Ws>, s: Sock, x: Ws)
    requires Known(socks, sockets) && s !in sockets && x.sent == []
    ensures Known(socks + [s], sockets[s := x])
    ensures HandedAll(socks + [s], sockets[s := x]) == HandedAll(socks, sockets)
  {
    HandedFrame(socks, sockets, sockets[s := x]);
    HandedLast(socks, s, sockets[s := x]);
  }

  lemma BackoffKeepsOrder(w: World, s: Sock)
    requires GoodSocks(w) && Fifo(w) && s !in w.sockets && w.state == Reconnecting && w.hasToken
    ensures GoodSocks(OnBackoff(w, s)) && Fifo(OnBackoff(w, s))
  {
    NewSocketKeepsOrder(w.socks, w.sockets, s, Ws(true, true, true, []));
  }

  lemma BackoffKeepsState(w: World, s: Sock)
    requires GoodState(w) && OneSpeaker(w) && w.backoffTimer && s !in w.sockets
    ensures GoodState(OnBackoff(w, s)) && OneSpeaker(OnBackoff(w, s)) && w.state == Reconnecting
  {
    var w' := OnBackoff(w, s);
    forall x | x in w'.sockets && Attached(w', x) ensures x == s {
      if x != s { assert Attached(w, x); }
    }
  }

  lemma BackoffKeeps(w: World, s: Sock)
    requires Inv(w) && Enabled(w, EvBackoff(s))
    ensures Inv(OnBackoff(w, s))
  {
    BackoffKeepsOrder(w, s);
    BackoffKeepsState(w, s);
  }

  lemma StepKeeps(w: World, e: Event)
    requires Inv(w) && Enabled(w, e)
    ensures Inv(Step(w, e))
  {
    match e
    case EvSession(s) => SessionKeeps(w, s);
    case EvAuthError(s) => AuthErrorKeeps(w, s);
    case EvClose(s, code, longUptime, calls) => OnCloseKeeps(w, s, code, longUptime, calls);
    case EvUptime =>
    case EvBackoff(s) => BackoffKeeps(w, s);
    case EvSend(m) => SendKeeps(w, m);
    case EvCloseCall => CloseKeeps(w);
  }

  ghost predicate Reaches(w: World, es: seq<Event>, w': World)
    decreases |es|
  {
    if es == [] then w == w'
    else Enabled(w, es[0]) && Reaches(Step(w, es[0]), es[1..], w')
  }

  lemma {:induction false} RunKeeps(w: World, es: seq<Event>, w': World)
    requires Inv(w) && Reaches(w, es, w')
    ensures Inv(w')
    decreases |es|
  {
    if es != [] {
      StepKeeps(w, es[0]);
      RunKeeps(Step(w, es[0]), es[1..], w');
    }
  }

  lemma InitInv(s: Sock)
    ensures Inv(Init(s))
  {
    var w := Init(s);
    assert w.socks[..0] == [];
    assert HandedAll(w.socks, w.sockets) == HandedAll([], w.sockets) + Rel([]) == [];
    assert GoodSocks(w) && GoodState(w) && GoodHistory(w) && GoodBuffer(w) && OneSpeaker(w);
  }

  // --- the promises, over all runs ---

  /** Until it closes, the reliable messages handed to its sockets, one after the
      other, followed by the buffer, are exactly those send accepted. */
  lemma SendsInOrder(s0: Sock, es: seq<Event>, w: World)
    requires Reaches(Init(s0), es, w) && w.state != Closed
    ensures Known(w.socks, w.sockets)
    ensures HandedAll(w.socks, w.sockets) + w.buffer == w.accepted
  {
    InitInv(s0);
    RunKeeps(Init(s0), es, w);
  }

  /** Closed is absorbing and onClose fires exactly once, on entering it. */
  lemma ClosedIsFinal(s0: Sock, es: seq<Event>, w: World, later: seq<Event>, w': World)
    requires Reaches(Init(s0), es, w) && Reaches(w, later, w')
    ensures w.closes == if w.state == Closed then 1 else 0
    ensures w.state == Closed ==> w'.state == Closed && w'.closes == 1 && w'.cause == w.cause
  {
    InitInv(s0);
    RunKeeps(Init(s0), es, w);
    RunKeeps(w, later, w');
    if w.state == Closed { StaysClosed(w, later, w'); }
  }

  lemma {:induction false} StaysClosed(w: World, es: seq<Event>, w': World)
    requires Inv(w) && w.state == Closed && Reaches(w, es, w')
    ensures w'.state == Closed && w'.cause == w.cause
    decreases |es|
  {
    if es != [] {
      StepKeeps(w, es[0]);
      StaysClosed(Step(w, es[0]), es[1..], w');
    }
  }

  /** An open connection has an empty buffer; outside closed the buffer is
      accounted for and never exceeds its cap; while reconnecting exactly one of
      a backoff timer or an attempt's socket is pending. */
  lemma MachineInvariant(s0: Sock, es: seq<Event>, w: World)
    requires Reaches(Init(s0), es, w)
    ensures w.state == Open ==> w.buffer == []
    ensures w.state != Closed ==> w.bufferBytes == Sum(w.buffer) <= MAX_BUFFER_BYTES
    ensures w.state == Reconnecting ==> (w.backoffTimer <==> !(w.ws.Some? && Attached(w, w.ws.value)))
    ensures w.state != Closed ==> forall s :: s in w.sockets && Attached(w, s) ==> w.ws == Some(s)
  {
    InitInv(s0);
    RunKeeps(Init(s0), es, w);
  }

  /** An outage opens at most ten sockets before a session or a terminal close,
      and gives up with 'reconnect-failed' only after all ten. */
  lemma AttemptsAreBounded(s0: Sock, es: seq<Event>, w: World)
    requires Reaches(Init(s0), es, w)
    ensures w.attempts <= MAX_RECONNECT_ATTEMPTS
    ensures w.state == Reconnecting ==> w.attempts <= w.retryCount <= MAX_RECONNECT_ATTEMPTS
    ensures w.cause == Some(ReconnectFailed) ==> w.attempts == MAX_RECONNECT_ATTEMPTS
  {
    InitInv(s0);
    RunKeeps(Init(s0), es, w);
  }

  /** What is left of an outage, counting a pending timer before its socket. */
  ghost function Remaining(w: World): int {
    2 * (MAX_RECONNECT_ATTEMPTS - w.retryCount) + if w.backoffTimer then 1 else 0
  }

  /** Every step of the retry loop uses the outage up: with no session, each
      timer and each failed attempt leaves less, until the connection closes. */
  lemma OutageIsUsedUp(s0: Sock, es: seq<Event>, w: World, e: Event)
    requires Reaches(Init(s0), es, w) && w.state == Reconnecting && Enabled(w, e)
    requires e.EvBackoff? || e.EvClose?
    ensures var w' := Step(w, e);
      w'.state == Closed || (w'.state == Reconnecting && 0 <= Remaining(w') < Remaining(w))
  {
    InitInv(s0);
    RunKeeps(Init(s0), es, w);
  }

  /** A consented cause means the app called close, an auth cause that the room refused. */
  lemma CausesAreTrue(s0: Sock, es: seq<Event>, w: World)
    requires Reaches(Init(s0), es, w)
    ensures w.cause == Some(Consented) ==> w.closeCalled
    ensures w.cause == Some(Auth) ==> w.initialAuthFailed
  {
    InitInv(s0);
    RunKeeps(Init(s0), es, w);
  }
}
