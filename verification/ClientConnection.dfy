/** The client's connection machine in the source's own form: closure variables
    updated by socket events, timers and the app's calls. */
module ClientConnection {
  import opened Prelude
  import opened ClientSpec
  import opened ClientProofs

  lemma PushOneMore(x: Ws, buffer: seq<Message>, i: nat)
    requires i < |buffer|
    ensures Push(Push(x, buffer[..i]), [buffer[i]]) == Push(x, buffer[..i + 1])
  {
    assert buffer[..i + 1] == buffer[..i] + [buffer[i]];
    assert x.sent + (buffer[..i] + [buffer[i]]) == x.sent + buffer[..i] + [buffer[i]];
  }

  lemma CallsOneMore(w: World, calls: seq<Call>, i: nat)
    requires i < |calls|
    ensures Calls(w, calls[..i + 1]) ==
      match calls[i] case CallSend(m) => Send(Calls(w, calls[..i]), m) case CallClose => Close(Calls(w, calls[..i]))
  {
    assert calls[..i + 1][..i] == calls[..i];
  }

  /** The history fields of the machine's state. */
  datatype History = History(
    socks: seq<Sock>, accepted: seq<Message>, closes: nat, cause: Option<Cause>, attempts: nat, closeCalled: bool)

  class Connection {
    var state: State
    var ws: Option<Sock>
    var hasToken: bool
    var retryCount: nat
    var uptimeTimer: bool
    var backoffTimer: bool
    var initialAuthFailed: bool
    var consentedClose: bool
    var buffer: seq<Message>
    var bufferBytes: nat
    var sockets: map<Sock, Ws>
    ghost var past: History

    ghost function View(): World
      reads this
    {
      World(state, ws, hasToken, retryCount, uptimeTimer, backoffTimer, initialAuthFailed, consentedClose, buffer,
            bufferBytes, sockets, past.socks, past.accepted, past.closes, past.cause, past.attempts, past.closeCalled)
    }

    constructor (s: Sock)
      ensures View() == Init(s) && Inv(View())
    {
      state, ws, hasToken, retryCount := Connecting, Some(s), false, 0;
      uptimeTimer, backoffTimer, initialAuthFailed, consentedClose := false, false, false, false;
      buffer, bufferBytes := [], 0;
      sockets := map[s := Ws(false, true, true, [])];
      past := History([s], [], 0, None, 0, false);
      new;
      InitInv(s);
    }

    method ClearTimers()
      modifies this`uptimeTimer, this`backoffTimer
      ensures !uptimeTimer && !backoffTimer
    {
      if uptimeTimer { uptimeTimer := false; }
      if backoffTimer { backoffTimer := false; }
    }

    method DropBuffer()
      modifies this`buffer, this`bufferBytes
      ensures buffer == [] && bufferBytes == 0
    {
      buffer := [];
      bufferBytes := 0;
    }

    method ToClosed(why: Cause)
      modifies this
      ensures View() == EnterClosed(old(View()), why)
    {
      state := Closed;
      ClearTimers();
      ws := None;
      DropBuffer();
      past := past.(closes := past.closes + 1, cause := Some(why));
    }

    method Hold(m: Message)
      modifies this
      ensures View() == BufferReliable(old(View()), m)
    {
      buffer := buffer + [m];
      bufferBytes := bufferBytes + m.byteSize;
      if bufferBytes > MAX_BUFFER_BYTES {
        ToClosed(BufferOverflow);
      }
    }

    method FlushTo(s: Sock)
      requires s in sockets
      modifies this`sockets, this`buffer, this`bufferBytes
      ensures sockets == old(sockets)[s := Push(old(sockets)[s], old(buffer))] && buffer == [] && bufferBytes == 0
    {
      var i := 0;
      assert buffer[..0] == [] && sockets[s].sent + [] == sockets[s].sent;
      while i < |buffer|
        invariant 0 <= i <= |buffer| && buffer == old(buffer)
        invariant sockets == old(sockets)[s := Push(old(sockets)[s], buffer[..i])]
      {
        PushOneMore(old(sockets)[s], buffer, i);
        sockets := sockets[s := Push(sockets[s], [buffer[i]])];
        i := i + 1;
      }
      assert buffer[..i] == buffer;
      DropBuffer();
    }

    method SendMessage(m: Message)
      modifies this
      ensures View() == Send(old(View()), m)
    {
      if state == Open && ws.Some? {
        if ws.value in sockets {
          sockets := sockets[ws.value := Push(sockets[ws.value], [m])];
          if m.reliable { past := past.(accepted := past.accepted + [m]); }
        }
        return;
      }
      if (state == Connecting || state == Reconnecting) && m.reliable {
        past := past.(accepted := past.accepted + [m]);
        Hold(m);
      }
    }

    method CloseConnection()
      modifies this
      ensures View() == Close(old(View()))
    {
      if state == Closed { return; }
      past := past.(closeCalled := true);
      if state == Open {
        if ws.Some? { consentedClose := true; }
        return;
      }
      if state == Reconnecting {
        if ws.Some? && ws.value in sockets {
          sockets := sockets[ws.value := sockets[ws.value].(wired := false)];
        }
        ToClosed(Consented);
        return;
      }
      if ws.Some? {
        if ws.value in sockets {
          sockets := sockets[ws.value := sockets[ws.value].(wired := false)];
        }
        ToClosed(Consented);
      }
    }

    method RetryLoop()
      modifies this
      ensures View() == StartReconnect(old(View()))
    {
      if state != Reconnecting { return; }
      if retryCount >= MAX_RECONNECT_ATTEMPTS {
        ToClosed(ReconnectFailed);
        return;
      }
      retryCount := retryCount + 1;
      backoffTimer := true;
    }

    method SessionArrived(s: Sock)
      requires s in sockets
      modifies this
      ensures View() == OnSession(old(View()), s)
    {
      hasToken := true;
      if sockets[s].isReconnect && state == Reconnecting {
        state := Open;
        retryCount := 0;
        Established(s);
        return;
      }
      if !sockets[s].isReconnect && state == Connecting {
        state := Open;
        Established(s);
        return;
      }
    }

    /** The minimum-uptime timer starts, and the buffer goes out before the app is told. */
    method Established(s: Sock)
      requires s in sockets
      modifies this`uptimeTimer, this`past, this`sockets, this`buffer, this`bufferBytes
      ensures uptimeTimer && past == old(past).(attempts := 0)
      ensures sockets == old(sockets)[s := Push(old(sockets)[s], old(buffer))] && buffer == [] && bufferBytes == 0
    {
      uptimeTimer := true;
      past := past.(attempts := 0);
      FlushTo(s);
    }

    method AuthErrorArrived(s: Sock)
      requires s in sockets
      modifies this
      ensures View() == OnAuthError(old(View()), s)
    {
      if sockets[s].isReconnect && state == Reconnecting {
        ToClosed(SessionRejected);
        return;
      }
      initialAuthFailed := true;
    }

    /** The app's onDrop handler. */
    method RunOnDrop(calls: seq<Call>)
      modifies this
      ensures View() == Calls(old(View()), calls)
    {
      ghost var w := View();
      assert calls[..0] == [];
      for i := 0 to |calls|
        invariant View() == Calls(w, calls[..i])
      {
        CallsOneMore(w, calls, i);
        match calls[i] {
          case CallSend(m) => SendMessage(m);
          case CallClose => CloseConnection();
        }
      }
      assert calls[..|calls|] == calls;
    }

    method SocketClosed(s: Sock, code: int, longUptime: bool, calls: seq<Call>)
      requires s in sockets
      modifies this
      ensures View() == OnClose(old(View()), s, code, longUptime, calls)
    {
      sockets := sockets[s := sockets[s].(live := false)];
      if uptimeTimer { uptimeTimer := false; }
      if state == Closed { return; }
      if state == Connecting {
        ToClosed(if initialAuthFailed then Auth else InitialConnectFailed);
        return;
      }
      if state == Reconnecting {
        RetryLoop();
        return;
      }
      OpenSocketClosed(code, longUptime, calls);
    }

    /** The close event's part for a live connection. */
    method OpenSocketClosed(code: int, longUptime: bool, calls: seq<Call>)
      modifies this
      ensures View() == Dropped(old(View()), code, longUptime, calls)
    {
      if code == CONSENTED {
        ToClosed(if consentedClose then Consented else Server);
        return;
      }
      if hasToken {
        state := Reconnecting;
        ws := None;
        if longUptime { retryCount := 0; }
        RunOnDrop(calls);
        RetryLoop();
      } else {
        ToClosed(Server);
      }
    }

    method BackoffFired(s: Sock)
      modifies this
      ensures View() == OnBackoff(old(View()), s)
    {
      backoffTimer := false;
      if state != Reconnecting { return; }
      if !hasToken {
        ToClosed(Server);
        return;
      }
      sockets := sockets[s := Ws(true, true, true, [])];
      ws := Some(s);
      past := past.(socks := past.socks + [s], attempts := past.attempts + 1);
    }

    /** Whatever happens next, the connection takes exactly the specified step
        and keeps the invariant. */
    method Handle(e: Event)
      requires Inv(View()) && Enabled(View(), e)
      modifies this
      ensures View() == Step(old(View()), e) && Inv(View())
    {
      StepKeeps(View(), e);
      match e {
        case EvSession(s) => SessionArrived(s);
        case EvAuthError(s) => AuthErrorArrived(s);
        case EvClose(s, code, longUptime, calls) => SocketClosed(s, code, longUptime, calls);
        case EvUptime =>
          uptimeTimer := false;
          retryCount := 0;
        case EvBackoff(s) => BackoffFired(s);
        case EvSend(m) => SendMessage(m);
        case EvCloseCall => CloseConnection();
      }
    }
  }
}
