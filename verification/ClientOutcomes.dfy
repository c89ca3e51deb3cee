/** What each event does to the client's connection, from the outside: when a
    send goes out, when a lost connection is taken up again, when and why it is
    closed for good. */
module ClientOutcomes {
  import opened Prelude
  import opened ClientSpec
  import opened ClientProofs

  lemma Reachable(s0: Sock, es: seq<Event>, w: World)
    requires Reaches(Init(s0), es, w)
    ensures Inv(w)
  {
    InitInv(s0);
    RunKeeps(Init(s0), es, w);
  }

  // --- what the app does in onDrop ---

  /** The reliable messages among the app's calls, and their size. */
  function Sends(calls: seq<Call>): seq<Message> {
    if calls == [] then []
    else
      var c := calls[|calls| - 1];
      Sends(calls[..|calls| - 1]) + if c.CallSend? && c.m.reliable then [c.m] else []
  }

  ghost function Bytes(calls: seq<Call>): nat { Sum(Sends(calls)) }

  /** The calls, up to some point before any close, send more than fits. */
  ghost predicate Overflows(calls: seq<Call>) {
    exists n :: 0 <= n <= |calls| && CallClose !in calls[..n] && Bytes(calls[..n]) > MAX_BUFFER_BYTES
  }

  lemma OverflowsMore(calls: seq<Call>)
    requires calls != []
    ensures var n := |calls| - 1;
      Overflows(calls) <==> Overflows(calls[..n]) || (CallClose !in calls && Bytes(calls) > MAX_BUFFER_BYTES)
  {
    var n := |calls| - 1;
    if Overflows(calls) {
      var k :| 0 <= k <= |calls| && CallClose !in calls[..k] && Bytes(calls[..k]) > MAX_BUFFER_BYTES;
      if k <= n { assert calls[..n][..k] == calls[..k]; } else { assert calls[..k] == calls; }
    }
    if Overflows(calls[..n]) {
      var k :| 0 <= k <= n && CallClose !in calls[..n][..k] && Bytes(calls[..n][..k]) > MAX_BUFFER_BYTES;
      assert calls[..n][..k] == calls[..k];
    }
    assert calls[..|calls|] == calls;
  }

  /** The calls leave the connection waiting for its next attempt. */
  ghost predicate StillWaits(w: World, sent: seq<Message>, w': World) {
    && w'.state == Reconnecting && w'.ws == None && w'.retryCount == w.retryCount && w'.closes == w.closes
    && w'.buffer == sent && w'.bufferBytes == Sum(sent) && w'.hasToken == w.hasToken
    && w'.accepted == w.accepted + sent && w'.sockets == w.sockets && !w'.uptimeTimer && !w'.backoffTimer
  }

  predicate ClosedBy(w: World, w': World) {
    w'.state == Closed && w'.closes == w.closes + 1 && !w'.backoffTimer
  }

  /** The app gives the connection up while the drop is being handled. */
  ghost predicate GivesUp(calls: seq<Call>) { CallClose in calls || Overflows(calls) }

  ghost predicate Outcome(w: World, calls: seq<Call>, w': World) {
    if GivesUp(calls)
    then ClosedBy(w, w') && w'.cause == Some(if Overflows(calls) then BufferOverflow else Consented)
    else StillWaits(w, Sends(calls), w')
  }

  /** One more call: after giving up nothing changes, a close gives up, a reliable
      send does when it is too much. */
  lemma OneMoreCall(calls: seq<Call>)
    requires calls != []
    ensures var n := |calls| - 1; var init, c := calls[..n], calls[n];
      && Sends(calls) == Sends(init) + (if c.CallSend? && c.m.reliable then [c.m] else [])
      && (GivesUp(init) ==> GivesUp(calls) && (Overflows(calls) <==> Overflows(init)))
      && (!GivesUp(init) && c.CallClose? ==> GivesUp(calls) && !Overflows(calls))
      && (!GivesUp(init) && c.CallSend? ==>
            && (GivesUp(calls) <==> Overflows(calls))
            && (Overflows(calls) <==> c.m.reliable && Sum(Sends(init) + [c.m]) > MAX_BUFFER_BYTES))
  {
    var n := |calls| - 1;
    assert calls == calls[..n] + [calls[n]] && calls[n] in calls;
    OverflowsMore(calls);
    if !Overflows(calls[..n]) && CallClose !in calls[..n] {
      assert calls[..n][..n] == calls[..n];
      assert Bytes(calls[..n]) <= MAX_BUFFER_BYTES;
      assert Sends(calls[..n]) + [] == Sends(calls[..n]);
    }
  }

  lemma {:induction false} CallsOutcome(w: World, calls: seq<Call>)
    requires w.state == Reconnecting && w.ws == None && w.buffer == [] && w.bufferBytes == 0
    requires !w.uptimeTimer && !w.backoffTimer
    ensures Outcome(w, calls, Calls(w, calls))
    decreases |calls|
  {
    if calls == [] {
      assert StillWaits(w, [], w);
    } else {
      var n := |calls| - 1;
      CallsOutcome(w, calls[..n]);
      NextOutcome(w, calls, Calls(w, calls[..n]), calls[n]);
    }
  }

  lemma NextOutcome(w: World, calls: seq<Call>, w1: World, c: Call)
    requires calls != [] && c == calls[|calls| - 1] && w.ws == None && Outcome(w, calls[..|calls| - 1], w1)
    ensures Outcome(w, calls, if c.CallClose? then Close(w1) else Send(w1, c.m))
  {
    OneMoreCall(calls);
    if GivesUp(calls[..|calls| - 1]) {
      ClosedStaysClosed(w1, c);
    } else if c.CallSend? {
      SendWhileWaiting(w, Sends(calls[..|calls| - 1]), w1, c.m);
    }
  }

  lemma ClosedStaysClosed(w: World, c: Call)
    requires w.state == Closed
    ensures (if c.CallClose? then Close(w) else Send(w, c.m)) == w
  {
  }

  lemma SendWhileWaiting(w: World, sent: seq<Message>, w1: World, m: Message)
    requires StillWaits(w, sent, w1) && w.ws == None
    ensures var w' := Send(w1, m);
      if !m.reliable then w' == w1
      else if Sum(sent + [m]) > MAX_BUFFER_BYTES then ClosedBy(w, w') && w'.cause == Some(BufferOverflow)
      else StillWaits(w, sent + [m], w')
  {
    SumAppend(sent, m);
  }

  // --- a connection that loses its socket ---

  /** An open connection that loses its socket is taken up again, with a first
      attempt due and nothing reported, unless the close was consented or the app
      gives it up in onDrop: then, and only then, it is closed for good. */
  lemma DropReconnectsIff(s0: Sock, es: seq<Event>, w: World, s: Sock, code: int, longUptime: bool, calls: seq<Call>)
    requires Reaches(Init(s0), es, w) && w.state == Open && Enabled(w, EvClose(s, code, longUptime, calls))
    ensures var w' := Step(w, EvClose(s, code, longUptime, calls));
      && (w'.state == Closed <==> code == CONSENTED || GivesUp(calls))
      && (w'.state != Closed ==>
            && w'.state == Reconnecting && w'.backoffTimer && w'.retryCount == 1 && w'.ws == None
            && w'.closes == 0 && w'.cause == None && w'.buffer == Sends(calls))
  {
    Reachable(s0, es, w);
    DropOutcome(w, s, code, longUptime, calls, Step(w, EvClose(s, code, longUptime, calls)));
  }

  lemma DropOutcome(w: World, s: Sock, code: int, longUptime: bool, calls: seq<Call>, w': World)
    requires Inv(w) && w.state == Open && Enabled(w, EvClose(s, code, longUptime, calls))
    requires w' == Step(w, EvClose(s, code, longUptime, calls))
    ensures w'.state == Closed <==> code == CONSENTED || GivesUp(calls)
    ensures w'.state != Closed ==>
      && w'.state == Reconnecting && w'.backoffTimer && w'.retryCount == 1 && w'.ws == None
      && w'.closes == 0 && w'.cause == None && w'.buffer == Sends(calls)
    ensures w'.state == Closed ==> w'.cause == Some(
      if code == CONSENTED then (if w.consentedClose then Consented else Server)
      else if Overflows(calls) then BufferOverflow else Consented)
  {
    if code != CONSENTED {
      var w1 := w.(uptimeTimer := false, sockets := w.sockets[s := w.sockets[s].(live := false)]);
      var w2 := w1.(state := Reconnecting, ws := None, retryCount := if longUptime then 0 else w1.retryCount);
      CallsOutcome(w2, calls);
      assert w' == StartReconnect(Calls(w2, calls));
      OnCloseKeeps(w, s, code, longUptime, calls);
    }
  }

  /** The backoff timer makes the attempt's socket, the only one that can speak. */
  lemma AttemptIsMade(s0: Sock, es: seq<Event>, w: World, s: Sock)
    requires Reaches(Init(s0), es, w) && Enabled(w, EvBackoff(s))
    ensures var w' := Step(w, EvBackoff(s));
      && w'.state == Reconnecting && w'.ws == Some(s) && Enabled(w', EvSession(s)) && !w'.backoffTimer
      && w'.socks == w.socks + [s] && w'.sockets[s].sent == [] && w'.retryCount == w.retryCount
      && w'.buffer == w.buffer
  {
    Reachable(s0, es, w);
  }

  /** An attempt that fails is followed by another one, unless it was the tenth. */
  lemma FailedAttemptRetriesIff(s0: Sock, es: seq<Event>, w: World, e: Event)
    requires Reaches(Init(s0), es, w) && w.state == Reconnecting && e.EvClose? && Enabled(w, e)
    ensures var w' := Step(w, e);
      && (w'.state == Closed <==> w.attempts == MAX_RECONNECT_ATTEMPTS)
      && (w'.state == Closed ==> w'.cause == Some(ReconnectFailed))
      && (w'.state != Closed ==>
            && w'.state == Reconnecting && w'.backoffTimer && w'.retryCount == w.retryCount + 1
            && w'.buffer == w.buffer && w'.closes == 0)
  {
    Reachable(s0, es, w);
    assert Attached(w, e.s);
  }

  /** The session message opens a connection that is not established, flushing its
      buffer to that socket in order; the attempts start anew. */
  lemma SessionOpens(s0: Sock, es: seq<Event>, w: World, s: Sock)
    requires Reaches(Init(s0), es, w) && w.state != Closed && Enabled(w, EvSession(s))
    ensures var w' := Step(w, EvSession(s));
      && w'.state == Open && w.ws == w'.ws == Some(s) && w'.hasToken && w'.retryCount == 0 && w'.closes == 0
      && w'.buffer == [] && w'.accepted == w.accepted
      && (w.state != Open ==> w'.sockets[s].sent == w.sockets[s].sent + w.buffer)
      && (w.state == Open ==> w'.sockets == w.sockets)
  {
    Reachable(s0, es, w);
    assert Attached(w, s);
  }

  /** The backoff timer and then a session on its socket open the connection, and
      `sent` is what goes out on that socket at once. */
  ghost predicate AttemptOpens(w: World, s: Sock, sent: seq<Message>) {
    && Enabled(w, EvBackoff(s))
    && Enabled(Step(w, EvBackoff(s)), EvSession(s))
    && IsOpenOn(Step(Step(w, EvBackoff(s)), EvSession(s)), s, sent)
  }

  predicate IsOpenOn(w: World, s: Sock, sent: seq<Message>) {
    w.state == Open && w.ws == Some(s) && s in w.sockets && w.sockets[s].sent == sent
  }

  /** A drop that the app does not give up on, an attempt, a session: the
      connection is open again, and what was sent meanwhile has gone out in order. */
  lemma OutageHeals(s0: Sock, es: seq<Event>, w: World, e: Event, s: Sock)
    requires Reaches(Init(s0), es, w) && w.state == Open && e.EvClose? && Enabled(w, e)
    requires e.code != CONSENTED && !GivesUp(e.calls) && s !in w.sockets
    ensures AttemptOpens(Step(w, e), s, Sends(e.calls))
  {
    Reachable(s0, es, w);
    var w1 := Step(w, e);
    DropOutcome(w, e.s, e.code, e.longUptime, e.calls, w1);
    StepKeeps(w, e);
    SocketsStay(w, e);
    BackoffThenSession(w1, s);
  }

  lemma SocketsStay(w: World, e: Event)
    requires Inv(w) && w.state == Open && e.EvClose? && Enabled(w, e) && e.code != CONSENTED && !GivesUp(e.calls)
    ensures Step(w, e).sockets.Keys == w.sockets.Keys
  {
    var w1 := w.(uptimeTimer := false, sockets := w.sockets[e.s := w.sockets[e.s].(live := false)]);
    CallsOutcome(w1.(state := Reconnecting, ws := None, retryCount := if e.longUptime then 0 else w1.retryCount),
      e.calls);
  }

  lemma BackoffThenSession(w: World, s: Sock)
    requires Inv(w) && Enabled(w, EvBackoff(s))
    ensures AttemptOpens(w, s, w.buffer)
  {
  }

  // --- sending ---

  /** What becomes of one message: on the wire of the one socket, at the end of the
      buffer, or the end of the connection; nothing when it is not reliable and
      the connection not open, or closed. */
  lemma SendOutcome(s0: Sock, es: seq<Event>, w: World, m: Message)
    requires Reaches(Init(s0), es, w)
    ensures var w' := Step(w, EvSend(m));
      && (w.state == Open ==>
            && w.ws.Some? && w.ws.value in w.sockets
            && w' == w.(sockets := w'.sockets, accepted := w.accepted + if m.reliable then [m] else [])
            && w'.sockets == w.sockets[w.ws.value := w'.sockets[w.ws.value]]
            && w'.sockets[w.ws.value] == w.sockets[w.ws.value].(sent := w.sockets[w.ws.value].sent + [m]))
      && (w.state == Closed || (w.state != Open && !m.reliable) ==> w' == w)
      && ((w.state == Connecting || w.state == Reconnecting) && m.reliable ==>
            && w'.accepted == w.accepted + [m]
            && (w'.state == Closed <==> Sum(w.buffer) + m.byteSize > MAX_BUFFER_BYTES)
            && (w'.state == Closed ==> w'.cause == Some(BufferOverflow))
            && (w'.state != Closed ==> w'.state == w.state && w'.buffer == w.buffer + [m] && w'.ws == w.ws))
  {
    Reachable(s0, es, w);
  }

  // --- why it was closed ---

  ghost predicate Refused(es: seq<Event>) { exists i :: 0 <= i < |es| && es[i].EvAuthError? }

  /** What the run so far has heard: a refusal while it was connecting, a close call. */
  ghost predicate Heard(w: World, es: seq<Event>) {
    && (w.state == Connecting ==> (w.initialAuthFailed <==> Refused(es)))
    && (w.state != Closed ==> (w.consentedClose <==> EvCloseCall in es))
  }

  predicate HearsNothing(w: World, w': World) {
    && (w'.state == Closed || (w'.state == Reconnecting && w'.ws == None))
    && (w'.state != Closed ==> w'.consentedClose == w.consentedClose)
  }

  lemma {:induction false} CallsHear(w: World, calls: seq<Call>)
    requires w.state == Reconnecting && w.ws == None
    ensures HearsNothing(w, Calls(w, calls))
    decreases |calls|
  {
    if calls != [] { CallsHear(w, calls[..|calls| - 1]); }
  }

  lemma CloseHears(w: World, e: Event, w': World)
    requires Inv(w) && e.EvClose? && Enabled(w, e) && w' == Step(w, e)
    ensures w'.state != Connecting && (w'.state != Closed ==> w'.consentedClose == w.consentedClose)
  {
    var w1 := w.(uptimeTimer := false, sockets := w.sockets[e.s := w.sockets[e.s].(live := false)]);
    if w.state == Open && e.code != CONSENTED {
      var w2 := w1.(state := Reconnecting, ws := None, retryCount := if e.longUptime then 0 else w1.retryCount);
      CallsHear(w2, e.calls);
      assert w' == StartReconnect(Calls(w2, e.calls));
    }
  }

  lemma OneMoreEvent(es: seq<Event>, e: Event)
    ensures Refused(es + [e]) <==> Refused(es) || e.EvAuthError?
    ensures EvCloseCall in es + [e] <==> EvCloseCall in es || e.EvCloseCall?
  {
    var es' := es + [e];
    assert es'[|es|] == e;
    if Refused(es) {
      var i :| 0 <= i < |es| && es[i].EvAuthError?;
      assert es'[i].EvAuthError?;
    }
  }

  lemma StepHears(w: World, es: seq<Event>, e: Event, w': World)
    requires Inv(w) && Heard(w, es) && Enabled(w, e) && w' == Step(w, e)
    ensures Heard(w', es + [e])
  {
    OneMoreEvent(es, e);
    if w.state == Closed { StepKeeps(w, e); StaysClosed(w, [e], w') by { assert Reaches(w', [], w'); } }
    else if e.EvClose? { CloseHears(w, e, w'); }
    else { OtherHears(w, e, w'); }
  }

  lemma OtherHears(w: World, e: Event, w': World)
    requires Inv(w) && w.state != Closed && Enabled(w, e) && !e.EvClose? && w' == Step(w, e)
    ensures w'.state == Connecting ==> w.state == Connecting
    ensures w'.state == Connecting ==> (w'.initialAuthFailed <==> w.initialAuthFailed || e.EvAuthError?)
    ensures w'.state != Closed ==> (w'.consentedClose <==> w.consentedClose || e.EvCloseCall?)
  {
    if e.EvSession? || e.EvAuthError? { assert Attached(w, e.s); }
  }

  lemma {:induction false} RunHears(past: seq<Event>, w: World, es: seq<Event>, w': World)
    requires Inv(w) && Heard(w, past) && Reaches(w, es, w')
    ensures Heard(w', past + es)
    decreases |es|
  {
    if es == [] {
      assert past + es == past;
    } else {
      StepHears(w, past, es[0], Step(w, es[0]));
      StepKeeps(w, es[0]);
      RunHears(past + [es[0]], Step(w, es[0]), es[1..], w');
      assert past + [es[0]] + es[1..] == past + es;
    }
  }

  /** The events that end a connection, by the state they come in. */
  ghost predicate Ends(w: World, e: Event) {
    match e
    case EvAuthError(_) => w.state == Reconnecting
    case EvClose(_, code, _, calls) =>
      || w.state == Connecting
      || (w.state == Reconnecting && w.attempts == MAX_RECONNECT_ATTEMPTS)
      || (w.state == Open && (code == CONSENTED || GivesUp(calls)))
    case EvSend(m) => w.state != Open && m.reliable && Sum(w.buffer) + m.byteSize > MAX_BUFFER_BYTES
    case EvCloseCall => w.state != Open
    case _ => false
  }

  /** Why: by what the run has seen, and by the event that ended it. */
  ghost function Why(es: seq<Event>, w: World, e: Event): Cause {
    match e
    case EvAuthError(_) => SessionRejected
    case EvClose(_, code, _, calls) =>
      if w.state == Connecting then
        if Refused(es) then Auth else InitialConnectFailed
      else if w.state == Reconnecting then ReconnectFailed
      else if code == CONSENTED then (if EvCloseCall in es then Consented else Server)
      else if Overflows(calls) then BufferOverflow else Consented
    case EvSend(_) => BufferOverflow
    case _ => Consented
  }

  /** A connection is closed by exactly these events, and onClose gets the cause
      they and the run before them give. */
  lemma ClosesIff(s0: Sock, es: seq<Event>, w: World, e: Event)
    requires Reaches(Init(s0), es, w) && w.state != Closed && Enabled(w, e)
    ensures Step(w, e).state == Closed <==> Ends(w, e)
    ensures Ends(w, e) ==> Step(w, e).cause == Some(Why(es, w, e)) && Step(w, e).closes == 1
  {
    Reachable(s0, es, w);
    StepKeeps(w, e);
    InitInv(s0);
    RunHears([], Init(s0), es, w);
    assert [] + es == es;
    if e.EvClose? { CloseEnds(es, w, e, Step(w, e)); } else { OtherEnds(es, w, e, Step(w, e)); }
  }

  lemma CloseEnds(es: seq<Event>, w: World, e: Event, w': World)
    requires Inv(w) && Heard(w, es) && w.state != Closed && e.EvClose? && Enabled(w, e) && w' == Step(w, e)
    ensures w'.state == Closed <==> Ends(w, e)
    ensures Ends(w, e) ==> w'.cause == Some(Why(es, w, e))
  {
    if w.state == Open {
      DropOutcome(w, e.s, e.code, e.longUptime, e.calls, w');
    } else {
      assert Attached(w, e.s);
    }
  }

  lemma OtherEnds(es: seq<Event>, w: World, e: Event, w': World)
    requires Inv(w) && w.state != Closed && !e.EvClose? && Enabled(w, e) && w' == Step(w, e)
    ensures w'.state == Closed <==> Ends(w, e)
    ensures Ends(w, e) ==> w'.cause == Some(Why(es, w, e))
  {
    if e.EvAuthError? || e.EvSession? { assert Attached(w, e.s); }
  }
}
