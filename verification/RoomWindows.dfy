/** Reconnection windows that overlap (src/room/start.ts): a second call of
    allowReconnection leaves the first timer running, unknown to the client. */
module RoomWindows {
  import opened Prelude
  import opened RoomSpec
  import opened RoomInvariant
  import opened RoomRuns
  import opened RoomVerbs
  import opened RoomWires

  /** Timers and continuations: what may happen without anybody asking for it. */
  predicate OfItself(e: Event) { e.EvTimer? || e.EvStray? || e.EvDropDone? || e.EvDropThrew? }

  predicate ByItself(e: Event) { OfItself(e) || (e.EvEarlier? && OfItself(e.e)) }

  /** A live admission with nothing under way that could still evict it. */
  predicate AtRest(r: Tracked) { r.alive ==> !r.timer && r.strays == 0 && (r.pendingDrops > 0 ==> r.socket.Some?) }

  /** No window of the client's own was opened over another and left a timer
      running, and no earlier admission of its id has anything under way. */
  ghost predicate Settled(w: World, c: ClientId)
    requires c in w.records
  {
    w.records[c].strays == 0
    && forall k {:trigger w.earlier[k]} :: 0 <= k < |w.earlier| && w.earlier[k].id == c ==> AtRest(w.earlier[k].r)
  }

  /** In any run, a connected client survives every timer and every continuation
      of onDrop that may come, its own included, exactly when it is settled. */
  lemma ConnectedSurvivesIff(cfg: Config, es: seq<Event>, w: World, c: ClientId)
    requires AnyRun(cfg, Init, es, w) && Grounded(w) && Connected(w, c)
    ensures (forall e :: ByItself(e) && Possible(w, e) ==> Connected(Step(cfg, w, e), c)) <==> Settled(w, c)
  {
    AnyRunWires(cfg, Init, es, w);
    assert GoodSeat(w, c) && HasSocket(w, c);
    if Settled(w, c) {
      forall e | ByItself(e) && Possible(w, e) ensures Connected(Step(cfg, w, e), c) {
        ByItselfSpares(cfg, w, Step(cfg, w, e), e, c);
      }
    } else {
      var e := Evictor(w, c);
      EvictorEvicts(cfg, w, Step(cfg, w, e), e, c);
    }
  }

  lemma OwnDropSpares(cfg: Config, w: World, w': World, e: Event, c: ClientId)
    requires (e.EvDropDone? || e.EvDropThrew?) && e.id == c && Connected(w, c) && HasSocket(w, c)
    requires HandlePossible(w, e) && w' == HandleStep(cfg, w, e)
    ensures Connected(w', c)
  {
    if e.EvDropDone? { assert w' == DropDone(w, c); } else { assert w' == DropThrew(w, c); }
  }

  lemma OthersSpare(w: World, w': World, i: ClientId, c: ClientId)
    requires VerbMoves(w, w', i) && i != c && Connected(w, c)
    ensures Connected(w', c)
  {
    assert w'.records[c] == w.records[c];
  }

  lemma LatestSpares(cfg: Config, w: World, w': World, e: Event, c: ClientId)
    requires Wired(w) && Grounded(w) && OfItself(e) && HandlePossible(w, e) && HasSocket(w, e.id)
    requires w' == HandleStep(cfg, w, e) && Connected(w, c) && Settled(w, c)
    ensures Connected(w', c)
  {
    assert GoodSeat(w, c);
    if e.id == c {
      OwnDropSpares(cfg, w, w', e, c);
    } else {
      HandleVerb(cfg, w, w', e);
      OthersSpare(w, w', e.id, c);
    }
  }

  lemma EarlierSpares(cfg: Config, w: World, w': World, k: nat, e: Event, c: ClientId)
    requires Wired(w) && Grounded(w) && OfItself(e) && Possible(w, EvEarlier(k, e)) && w' == OnEarlier(cfg, w, k, e)
    requires Connected(w, c) && Settled(w, c)
    ensures Connected(w', c)
  {
    EarlierVerb(cfg, w, w', k, e);
    if w.earlier[k].id == c && w.earlier[k].r.alive {
      assert AtRest(w.earlier[k].r);
      assert w'.earlier[k].r.alive;
    }
  }

  lemma ByItselfSpares(cfg: Config, w: World, w': World, e: Event, c: ClientId)
    requires Wired(w) && Grounded(w) && ByItself(e) && Possible(w, e) && w' == Step(cfg, w, e)
    requires Connected(w, c) && Settled(w, c)
    ensures Connected(w', c)
  {
    if e.EvEarlier? {
      EarlierSpares(cfg, w, w', e.k, e.e, c);
    } else {
      assert HasSocket(w, e.id);
      LatestSpares(cfg, w, w', e, c);
    }
  }

  /** What evicts a client that is not settled. */
  lemma Evictor(w: World, c: ClientId) returns (e: Event)
    requires Wired(w) && Grounded(w) && Connected(w, c) && !Settled(w, c)
    ensures ByItself(e) && Possible(w, e)
    ensures e == EvStray(c)
      || (e.EvEarlier? && w.earlier[e.k].id == c && w.earlier[e.k].r.alive && Evicts(w.earlier[e.k].r, e.e))
  {
    if w.records[c].strays > 0 { return EvStray(c); }
    var k :| 0 <= k < |w.earlier| && w.earlier[k].id == c && !AtRest(w.earlier[k].r);
    var h := EvictorOf(w.earlier[k].r, c);
    assert HandlePossible(AsLatest(w, k), h);
    e := EvEarlier(k, h);
  }

  function EvictorOf(r: Tracked, c: ClientId): (e: Event)
    requires !AtRest(r)
    ensures OfItself(e) && e.id == c && Evicts(r, e) && (e.EvTimer? ==> r.timer) && (e.EvStray? ==> r.strays > 0)
    ensures e.EvDropDone? ==> r.pendingDrops > 0
  {
    if r.timer then EvTimer(c) else if r.strays > 0 then EvStray(c) else EvDropDone(c)
  }

  predicate Evicts(r: Tracked, e: Event) {
    e.EvTimer? || e.EvStray? || (e.EvDropDone? && !r.timer && r.socket.None?)
  }

  lemma StrayEvicts(w: World, w': World, c: ClientId)
    requires c in w.clients && HasSocket(w, c) && w.records[c].alive && w.records[c].strays > 0
    requires w' == StrayFires(w, c)
    ensures c !in w'.clients
  {
  }

  lemma EarlierEvicts(cfg: Config, w: World, w': World, k: nat, e: Event)
    requires Grounded(w) && Possible(w, EvEarlier(k, e)) && w' == OnEarlier(cfg, w, k, e)
    requires w.earlier[k].r.alive && w.earlier[k].id in w.clients && Evicts(w.earlier[k].r, e)
    ensures w.earlier[k].id !in w'.clients
  {
    EarlierVerb(cfg, w, w', k, e);
    assert !w'.earlier[k].r.alive;
  }

  lemma EvictorEvicts(cfg: Config, w: World, w': World, e: Event, c: ClientId)
    requires Wired(w) && Grounded(w) && Connected(w, c) && Possible(w, e) && w' == Step(cfg, w, e)
    requires e == EvStray(c)
      || (e.EvEarlier? && w.earlier[e.k].id == c && w.earlier[e.k].r.alive && Evicts(w.earlier[e.k].r, e.e))
    ensures c !in w'.clients
  {
    assert GoodSeat(w, c) && HasSocket(w, c);
    if e.EvEarlier? { EarlierEvicts(cfg, w, w', e.k, e.e); } else { StrayEvicts(w, w', c); }
  }

  /** How many timers run for a client. */
  function Running(r: Tracked): nat { r.strays + if r.timer then 1 else 0 }

  lemma WindowOpens(w: World, w1: World, c: ClientId)
    requires Waiting(w, c) && w.records[c].alive && w1 == AllowReconnection(w, c)
    ensures w1.ws == w.ws && w1.clients == w.clients && c in w1.records && w1.records[c].socket.None?
    ensures Running(w1.records[c]) == Running(w.records[c]) + 1 && w1.records[c].strays == Running(w.records[c])
  {
  }

  /** A second window opened over a first one: from then on two timers run, of
      which a reconnect cancels one. */
  lemma SecondWindowLeaksIff(cfg: Config, es: seq<Event>, w: World, c: ClientId, s: Sock, token: Token, w1: World)
    requires AnyRun(cfg, Init, es, w) && Grounded(w) && Waiting(w, c) && s !in w.ws && w1 == AllowReconnection(w, c)
    ensures c in w1.records && Running(w1.records[c]) == Running(w.records[c]) + 1
    ensures var w2 := Resume(CompleteUpgrade(w1, c, s), c, s, token);
      Connected(w2, c) && (w2.records[c].strays == 0 <==> Running(w.records[c]) == 0)
  {
    AnyRunWires(cfg, Init, es, w);
    assert GoodSeat(w, c);
    WindowOpens(w, w1, c);
    ResumedUpgrade(w1, Resume(CompleteUpgrade(w1, c, s), c, s, token), c, s, token);
  }

  /** In orderly runs no window is opened over another, and none is left over. */
  lemma StraysNeedASecondWindow(cfg: Config, es: seq<Event>, w: World, c: ClientId)
    requires Reaches(cfg, Init, es, w) && c in w.records
    ensures w.records[c].strays == 0 && !Possible(w, EvStray(c))
  {
    ReachableInv(cfg, es, w);
    assert GoodClient(cfg, w, c);
  }
}
