/** Two opens of one client id that overlap (src/room/start.ts): the seat is
    checked before onAuth and taken after it, so both may be admitted. What that
    does to the promise that every joiner leaves once. */
module RoomAdmissions {
  import opened Prelude
  import opened RoomSpec
  import opened RoomInvariant
  import opened RoomSteps
  import opened RoomRuns
  import opened RoomVerbs
  import opened RoomWires

  /** Whatever happens: an admission's onLeave and its client-disconnected have
      fired once iff it is dead, and a tracked client is alive. */
  lemma LeavesAreCounted(cfg: Config, es: seq<Event>, w: World)
    requires AnyRun(cfg, Init, es, w)
    ensures forall c <- w.records :: Counted(w.records[c]) && (c in w.clients ==> w.records[c].alive)
    ensures forall k :: 0 <= k < |w.earlier| ==> Counted(w.earlier[k].r)
  {
    AnyRunWires(cfg, Init, es, w);
    forall c <- w.records ensures Counted(w.records[c]) && (c in w.clients ==> w.records[c].alive) {
      assert GoodSeat(w, c);
    }
    forall k | 0 <= k < |w.earlier| ensures Counted(w.earlier[k].r) { assert GoodAdmission(w, w.earlier[k]); }
  }

  // --- when every admission is alive iff tracked ---

  ghost predicate TrueThroughout(cfg: Config, w: World, es: seq<Event>)
    decreases |es|
  {
    TrueSeats(w)
    && (es != [] ==> Grounded(w) && Possible(w, es[0]) && TrueThroughout(cfg, Step(cfg, w, es[0]), es[1..]))
  }

  /** No onAuth comes back with ok for an id that is tracked by then. */
  ghost predicate NeverReadmits(cfg: Config, w: World, es: seq<Event>)
    decreases |es|
  {
    es != [] ==>
      Grounded(w) && Possible(w, es[0]) && !Readmits(w, es[0]) && NeverReadmits(cfg, Step(cfg, w, es[0]), es[1..])
  }

  lemma StepIsTrueIff(cfg: Config, w: World, w': World, e: Event)
    requires Wired(w) && Grounded(w) && TrueSeats(w) && Possible(w, e) && w' == Step(cfg, w, e)
    ensures Wired(w') && (TrueSeats(w') <==> !Readmits(w, e))
  {
    StepWires(cfg, w, w', e);
    if e.EvAuthOk? { AdmissionIsTrueIff(w, w', e.s, e.token); }
  }

  lemma {:induction false} TrueIffNeverReadmits(cfg: Config, w: World, es: seq<Event>, w': World)
    requires Wired(w) && TrueSeats(w) && AnyRun(cfg, w, es, w')
    ensures TrueThroughout(cfg, w, es) <==> NeverReadmits(cfg, w, es)
    decreases |es|
  {
    if es != [] {
      var w1 := Step(cfg, w, es[0]);
      StepIsTrueIff(cfg, w, w1, es[0]);
      if TrueSeats(w1) { TrueIffNeverReadmits(cfg, w1, es[1..], w'); }
    }
  }

  /** Over any run, every admission is throughout alive iff it is tracked, and has
      left once iff it is not, exactly when no onAuth ever comes back with ok for
      an id that is tracked by then. */
  lemma OneLeaverIffNeverReadmits(cfg: Config, es: seq<Event>, w: World)
    requires AnyRun(cfg, Init, es, w)
    ensures TrueThroughout(cfg, Init, es) <==> NeverReadmits(cfg, Init, es)
  {
    TrueIffNeverReadmits(cfg, Init, es, w);
  }

  // --- what two overlapping opens do ---

  lemma AdmittedAnew(w: World, w': World, s: Sock, token: Token)
    requires s in w.pending && s in w.ws && w' == AuthOk(w, s, token)
    ensures var id := w.pending[s];
      && w'.records == w.records[id := NewTracked(token, s)] && w'.clients == w.clients + {id}
      && w'.tokens == w.tokens[token := id] && w'.pending == w.pending - {s} && w'.ws.Keys == w.ws.Keys
      && w'.issued == w.issued + {token}
      && w'.earlier == (if id in w.records then w.earlier + [Admission(id, w.records[id])] else w.earlier)
  {
  }

  /** Two onAuths of one untracked id both come back with ok: the first client is
      alive but not in the map, and its token still leads to the id. */
  lemma OverlappingOpens(cfg: Config, w: World, s: Sock, t: Sock, a: Token, b: Token, w1: World, w2: World)
    requires Wired(w) && Grounded(w) && s != t && s in w.pending && t in w.pending && w.pending[s] == w.pending[t]
    requires a != b && Possible(w, EvAuthOk(s, a)) && w1 == Step(cfg, w, EvAuthOk(s, a))
    requires Grounded(w1) && Possible(w1, EvAuthOk(t, b)) && w2 == Step(cfg, w1, EvAuthOk(t, b))
    ensures var id := w.pending[s];
      && w2.earlier == w1.earlier + [Admission(id, NewTracked(a, s))] && id in w2.clients
      && w2.records == w1.records[id := NewTracked(b, t)]
      && a in w2.tokens && w2.tokens[a] == id
  {
    AdmittedAnew(w, w1, s, a);
    AdmittedAnew(w1, w2, t, b);
  }

  /** A verb of the first client's handle then takes the second one out of the map:
      it stays alive and connected, but is no longer tracked. */
  lemma FirstUntracksSecond(cfg: Config, w: World, k: nat, w': World)
    requires Wired(w) && Grounded(w) && k < |w.earlier| && w.earlier[k].r.alive && Connected(w, w.earlier[k].id)
    requires Possible(w, EvEarlier(k, EvDisconnect(w.earlier[k].id)))
    requires w' == Step(cfg, w, EvEarlier(k, EvDisconnect(w.earlier[k].id)))
    ensures var id := w.earlier[k].id;
      id !in w'.clients && w'.records == w.records && w'.records[id].alive && w'.records[id].leaves == 0
  {
    EarlierVerb(cfg, w, w', k, EvDisconnect(w.earlier[k].id));
    assert GoodSeat(w, w.earlier[k].id);
    assert !w'.earlier[k].r.alive;
  }

  /** Nothing lets the first client go but its own handle: the end of a stop does
      not know of it. */
  lemma StopForgetsEarlier(w: World, k: nat)
    requires k < |w.earlier|
    ensures StopFinish(w).earlier[k] == w.earlier[k]
  {
  }

  lemma OpenPends(w: World, w': World, id: ClientId, s: Sock)
    requires id !in w.clients && s !in w.ws && w' == OpenStart(w, id, s)
    ensures w'.pending == w.pending[s := id] && w'.ws.Keys == w.ws.Keys + {s} && w'.issued == w.issued
    ensures w'.clients == w.clients && w'.records == w.records && w'.earlier == w.earlier && w'.stopped == w.stopped
  {
  }

  lemma Wiring(cfg: Config, w: World, e: Event, w': World)
    requires Wired(w) && Grounded(w) && Possible(w, e) && w' == Step(cfg, w, e)
    ensures Wired(w') && Grounded(w')
  {
    StepWires(cfg, w, w', e);
    WiredIsGrounded(w');
  }

  /** Two opens of one id, both of which await their onAuth. */
  lemma BothPend(cfg: Config, id: ClientId) returns (w1: World, w2: World)
    ensures w1 == OpenStart(Init, id, 0) && w2 == OpenStart(w1, id, 1) && Wired(w2)
    ensures Grounded(Init) && Grounded(w1) && Grounded(w2)
    ensures Possible(Init, EvOpen(id, 0)) && Possible(w1, EvOpen(id, 1))
    ensures w2.pending == map[0 := id, 1 := id] && w2.issued == {} && w2.records == map[] && w2.earlier == []
    ensures w2.clients == {} && w2.ws.Keys == {0, 1}
  {
    w1 := OpenStart(Init, id, 0);
    w2 := OpenStart(w1, id, 1);
    OpenPends(Init, w1, id, 0);
    OpenPends(w1, w2, id, 1);
    Wiring(cfg, Init, EvOpen(id, 0), w1);
    Wiring(cfg, w1, EvOpen(id, 1), w2);
  }

  /** And both of which are let in. */
  lemma BothAdmitted(cfg: Config, id: ClientId, w2: World) returns (w3: World, w4: World)
    requires Wired(w2) && Grounded(w2) && w2.pending == map[0 := id, 1 := id] && w2.issued == {} && w2.earlier == []
    requires w2.clients == {} && w2.ws.Keys == {0, 1} && w2.records == map[]
    ensures Possible(w2, EvAuthOk(0, "a")) && w3 == Step(cfg, w2, EvAuthOk(0, "a")) && Grounded(w3)
    ensures Possible(w3, EvAuthOk(1, "b")) && w4 == Step(cfg, w3, EvAuthOk(1, "b"))
    ensures Readmits(w3, EvAuthOk(1, "b"))
    ensures w4.earlier == [Admission(id, NewTracked("a", 0))] && Connected(w4, id)
    ensures "a" in w4.tokens && w4.tokens["a"] == id
  {
    w3 := AuthOk(w2, 0, "a");
    AdmittedAnew(w2, w3, 0, "a");
    Wiring(cfg, w2, EvAuthOk(0, "a"), w3);
    w4 := AuthOk(w3, 1, "b");
    AdmittedAnew(w3, w4, 1, "b");
    OverlappingOpens(cfg, w2, 0, 1, "a", "b", w3, w4);
  }

  /** A run in which a client id is admitted twice: the first client is alive and
      not tracked, its token leads to the id. */
  lemma AdmittedTwice(cfg: Config, id: ClientId) returns (es: seq<Event>, w: World)
    ensures AnyRun(cfg, Init, es, w) && !NeverReadmits(cfg, Init, es)
    ensures w.earlier == [Admission(id, NewTracked("a", 0))] && Connected(w, id)
    ensures "a" in w.tokens && w.tokens["a"] == id
  {
    var w1, w2 := BothPend(cfg, id);
    var w3, w4 := BothAdmitted(cfg, id, w2);
    w := w4;
    var e4 := [EvAuthOk(1, "b")];
    var e3 := [EvAuthOk(0, "a")] + e4;
    var e2 := [EvOpen(id, 1)] + e3;
    es := [EvOpen(id, 0)] + e2;
    assert e4[1..] == [] && e3[1..] == e4 && e2[1..] == e3 && es[1..] == e2;
    assert AnyRun(cfg, w3, e4, w) && !NeverReadmits(cfg, w3, e4);
    assert AnyRun(cfg, w2, e3, w) && !NeverReadmits(cfg, w2, e3);
    assert AnyRun(cfg, w1, e2, w) && !NeverReadmits(cfg, w1, e2);
  }
}
