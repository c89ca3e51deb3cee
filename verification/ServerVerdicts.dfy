/** What runs of the server come to: which rooms a tick destroys, which it cuts off
    as stalled, and why, told by what happened in the run (src/server/server.ts). */
module ServerVerdicts {
  import opened Prelude
  import opened Store
  import opened ServerSpec
  import opened ServerInvariant
  import opened ServerRuns
  import opened ServerOutcomes

  // --- the destroy sweep ---

  /** Tick t began at step i of the run. */
  ghost predicate BeganAt(ws: seq<World>, es: seq<Event>, t: nat, i: nat)
    requires |ws| == |es| + 1
  {
    i < |es| && es[i].EvTickStart? && ws[i].nextTick == t
  }

  /** Before step n tick t has re-asserted the room. */
  ghost predicate ReassertedBefore(ws: seq<World>, es: seq<Event>, t: nat, n: nat, id: Id)
    requires |ws| == |es| + 1 && n <= |es|
  {
    exists m :: 0 <= m < n && es[m] == EvReasserted(t) && ReassertsAt(ws[m], t, id)
  }

  predicate ReassertsAt(w: World, t: nat, id: Id) { t in w.ticks && id in Pending(w.ticks[t].phase) }

  lemma ReassertedMore(ws: seq<World>, es: seq<Event>, t: nat, n: nat, id: Id)
    requires |ws| == |es| + 1 && n < |es|
    ensures ReassertedBefore(ws, es, t, n + 1, id) <==>
      ReassertedBefore(ws, es, t, n, id) || (es[n] == EvReasserted(t) && ReassertsAt(ws[n], t, id))
  {
  }

  lemma NoLaterTick(w: World, t: nat)
    requires TicksOk(w) && t >= w.nextTick
    ensures t !in w.ticks
  {
  }

  /** The counter has passed the tick's number. */
  lemma {:induction false} TicksAreNumbered(cfg: Config, ws: seq<World>, es: seq<Event>, i: nat, n: nat)
    requires IsRun(cfg, ws, es) && i <= n < |ws|
    ensures ws[i].nextTick <= ws[n].nextTick
    decreases n
  {
    if i < n {
      TicksAreNumbered(cfg, ws, es, i, n - 1);
      RunBasics(cfg, ws, es, n - 1);
      assert StepAt(cfg, ws, es, n - 1);
      RecordsStayOk(ws[n - 1], cfg, es[n - 1]);
    }
  }

  lemma RunTickGoes(cfg: Config, ws: seq<World>, es: seq<Event>, n: nat, t: nat)
    requires IsRun(cfg, ws, es) && n < |es| && t < ws[n].nextTick && t in ws[n + 1].ticks
    ensures t in ws[n].ticks && TickGoesOn(ws[n], es[n], ws[n + 1], t)
    ensures HasAnswer(ws[n], t) || (es[n].EvAnswer? && es[n].t == t) ==> HasAnswer(ws[n + 1], t)
  {
    RunBasics(cfg, ws, es, n);
    assert StepAt(cfg, ws, es, n);
    TickGoes(ws[n], cfg, es[n], ws[n + 1], t);
    StaysAnswered(ws[n], cfg, es[n], ws[n + 1], t);
  }

  lemma StaysAnswered(w: World, cfg: Config, e: Event, w': World, t: nat)
    requires Basics(w) && Enabled(w, e) && w' == Step(w, cfg, e) && t in w.ticks && t in w'.ticks
    ensures HasAnswer(w, t) || (e.EvAnswer? && e.t == t) ==> HasAnswer(w', t)
  {
    StepTicks(w, cfg, e, w', t);
    if e.EvAnswer? { assert w' == TickStep(w, cfg, e); }
  }

  lemma RunTickBegins(cfg: Config, ws: seq<World>, es: seq<Event>, i: nat, t: nat)
    requires IsRun(cfg, ws, es) && BeganAt(ws, es, t, i)
    ensures t < ws[i + 1].nextTick && t in ws[i + 1].ticks && ws[i + 1].ticks[t] == Tick(ws[i].now, Asked)
    ensures t !in ws[i].ticks
  {
    RunBasics(cfg, ws, es, i);
    assert StepAt(cfg, ws, es, i);
    OtherTicks(ws[i], cfg, es[i]);
    NoLaterTick(ws[i], t);
  }

  /** From its start on, a tick under way knows when it asked, and has re-asserted
      what the run re-asserted for it. */
  lemma {:induction false} TickFromStart(cfg: Config, ws: seq<World>, es: seq<Event>, i: nat, n: nat, t: nat, id: Id)
    requires IsRun(cfg, ws, es) && BeganAt(ws, es, t, i) && i < n < |ws| && t in ws[n].ticks
    ensures ws[n].ticks[t].requestedAt == ws[i].now
    ensures id in Reasserted(ws[n].ticks[t].phase) <==> ReassertedBefore(ws, es, t, n, id)
    decreases n
  {
    RunTickBegins(cfg, ws, es, i, t);
    if n == i + 1 {
      NothingBefore(cfg, ws, es, i, t, id);
    } else {
      TicksAreNumbered(cfg, ws, es, i + 1, n - 1);
      RunTickGoes(cfg, ws, es, n - 1, t);
      TickFromStart(cfg, ws, es, i, n - 1, t, id);
      ReassertedMore(ws, es, t, n - 1, id);
    }
  }

  lemma NothingBefore(cfg: Config, ws: seq<World>, es: seq<Event>, i: nat, t: nat, id: Id)
    requires IsRun(cfg, ws, es) && BeganAt(ws, es, t, i)
    ensures !ReassertedBefore(ws, es, t, i + 1, id)
  {
    forall m: nat | m <= i ensures !ReassertsAt(ws[m], t, id) { NotBegun(cfg, ws, es, i, m, t); }
  }

  /** Before its start a tick re-asserts nothing. */
  lemma {:induction false} NotBegun(cfg: Config, ws: seq<World>, es: seq<Event>, i: nat, m: nat, t: nat)
    requires IsRun(cfg, ws, es) && BeganAt(ws, es, t, i) && m <= i
    ensures t !in ws[m].ticks
  {
    RunBasics(cfg, ws, es, m);
    TicksAreNumbered(cfg, ws, es, m, i);
    NoLaterTick(ws[m], t);
  }

  /** From its answer on, a tick under way has that snapshot. */
  lemma {:induction false} TickFromAnswer(cfg: Config, ws: seq<World>, es: seq<Event>, j: nat, n: nat, t: nat,
                                          desired: seq<Assignment>)
    requires IsRun(cfg, ws, es) && j < n < |ws| && es[j] == EvAnswer(t, desired) && t in ws[n].ticks
    ensures Snapshot(ws[n].ticks[t].phase) == desired && HasAnswer(ws[n], t)
    decreases n
  {
    AnswersExist(cfg, ws, es, j, t, desired);
    TicksAreNumbered(cfg, ws, es, j, n - 1);
    RunTickGoes(cfg, ws, es, n - 1, t);
    if n > j + 1 {
      TickFromAnswer(cfg, ws, es, j, n - 1, t, desired);
      AnsweredOnce(cfg, ws, es, n - 1, t);
    }
  }

  lemma AnsweredOnce(cfg: Config, ws: seq<World>, es: seq<Event>, n: nat, t: nat)
    requires IsRun(cfg, ws, es) && n < |es| && t in ws[n].ticks && HasAnswer(ws[n], t)
    ensures !(es[n].EvAnswer? && es[n].t == t)
  {
    assert StepAt(cfg, ws, es, n);
  }

  lemma AnswersExist(cfg: Config, ws: seq<World>, es: seq<Event>, j: nat, t: nat, desired: seq<Assignment>)
    requires IsRun(cfg, ws, es) && j < |es| && es[j] == EvAnswer(t, desired)
    ensures t < ws[j].nextTick
  {
    RunBasics(cfg, ws, es, j);
    assert StepAt(cfg, ws, es, j) && t in ws[j].ticks && TickOk(ws[j], t);
  }

  /** In any run, with any overlap of ticks: let tick t begin at step i, get its
      snapshot at step j, and sweep at step n. A room with a process is killed by
      it, and marked as killed, exactly when it is not in the snapshot, the run has
      not re-asserted it for the tick, and it was not attempted since the tick
      began; one that is silent for too long is cut off beforehand. */
  lemma SweptIff(cfg: Config, ws: seq<World>, es: seq<Event>, i: nat, j: nat, n: nat, t: nat,
                 desired: seq<Assignment>, id: Id)
    requires IsRun(cfg, ws, es) && BeganAt(ws, es, t, i) && i < j < n < |es| && es[j] == EvAnswer(t, desired)
    requires (es[n] == EvAccept(t) || es[n] == EvFinish(t)) && SweepsNow(ws[n], es[n])
    requires id in ws[n].l.processes && !(es[n].EvAccept? && Silent(ws[n].l, cfg, ws[n].now, id))
    ensures var w, w' := ws[n], ws[n + 1];
      var k := w.l.processes[id];
      var unwanted := NotListed(desired, id) && !ReassertedBefore(ws, es, t, n, id)
                      && !AttemptedSince(w.l, id, ws[i].now);
      && k < |w.l.spawns| && k < |w'.l.spawns| && id in w'.l.processes && w'.l.processes[id] == k
      && (w'.l.spawns[k].killed <==> w.l.spawns[k].killed || unwanted)
      && (id in w'.l.killedRoomIds <==> id in w.l.killedRoomIds || unwanted)
      && w'.l.spawns[k].reports == w.l.spawns[k].reports
  {
    RunBasics(cfg, ws, es, n);
    assert StepAt(cfg, ws, es, n);
    TickFromStart(cfg, ws, es, i, n, t, id);
    TickFromAnswer(cfg, ws, es, j, n, t, desired);
    StepAsTold(ws[n], cfg, es[n], ws[n + 1], ws[n].l.processes[id]);
    SweepMarksAt(ws[n], cfg, es[n], ws[n + 1], id);
    SweptAt(ws[n], cfg, es[n], ws[n + 1], id);
  }

  lemma SweptAt(w: World, cfg: Config, e: Event, w': World, id: Id)
    requires Wf(w.l) && SweepsNow(w, e) && id in w.l.processes && AsTold(w, cfg, e, w', w.l.processes[id])
    requires !(e.EvAccept? && Silent(w.l, cfg, w.now, id))
    ensures var k := w.l.processes[id];
      && k < |w'.l.spawns| && id in w'.l.processes && w'.l.processes[id] == k
      && (w'.l.spawns[k].killed <==> w.l.spawns[k].killed || NotWanted(w, e.t, id))
      && w'.l.spawns[k].reports == w.l.spawns[k].reports
  {
  }

  lemma SweepMarksAt(w: World, cfg: Config, e: Event, w': World, id: Id)
    requires LocalOk(w.l) && Enabled(w, e) && w' == Step(w, cfg, e) && SweepsNow(w, e) && id in w.l.processes
    requires !(e.EvAccept? && Silent(w.l, cfg, w.now, id))
    ensures id in w'.l.killedRoomIds <==> id in w.l.killedRoomIds || NotWanted(w, e.t, id)
  {
    var tick, at := w.ticks[e.t], w.ticks[e.t].requestedAt;
    var l1 := if e.EvAccept? then CheckHeartbeats(w.l, cfg, w.now) else w.l;
    CheckHeartbeatsSame(w.l, cfg, w.now);
    CheckKeeps(w.l, cfg, w.now, CheckHeartbeats(w.l, cfg, w.now), id);
    CheckAt(w.l, cfg, w.now, CheckHeartbeats(w.l, cfg, w.now), w.l.processes[id]);
    FinishMarks(l1, cfg, tick.phase.desired, Reasserted(tick.phase), at, w.now, IsCurrent(w, e.t), id);
  }

  lemma FinishMarks(l: Local, cfg: Config, desired: seq<Assignment>, reasserted: set<Id>, at: int, now: int,
                    current: bool, id: Id)
    requires LocalOk(l) && id in l.processes
    ensures id in FinishTick(l, cfg, desired, reasserted, at, now, current).killedRoomIds <==>
      id in l.killedRoomIds || Outdated(l, desired, reasserted, at, id)
  {
    var l0 := l.(previouslyRegistered := true);
    var l1 := DestroyAll(l0, SweepTargets(l0, desired, reasserted, at));
    SpawnedKept(l, l0);
    DestroyAllSame(l0, SweepTargets(l0, desired, reasserted, at));
    SweepMarks(l0, desired, reasserted, at, l1, id);
    if current { ReconcileRoomsKeep(l1, cfg, desired, now, l.processes[id]); }
  }

  /** The rooms of which NoWantedRoomSwept and the others say that they are not swept. */
  lemma SweptMeans(cfg: Config, ws: seq<World>, es: seq<Event>, n: nat, id: Id)
    requires IsRun(cfg, ws, es) && n < |es|
    ensures id in Swept(ws[n], cfg, es[n]) <==>
      && SweepsNow(ws[n], es[n]) && id in ws[n].l.processes
      && !(es[n].EvAccept? && Silent(ws[n].l, cfg, ws[n].now, id)) && NotWanted(ws[n], es[n].t, id)
  {
    RunBasics(cfg, ws, es, n);
    assert StepAt(cfg, ws, es, n);
    var w, e := ws[n], es[n];
    if SweepsNow(w, e) {
      CheckKeeps(w.l, cfg, w.now, CheckHeartbeats(w.l, cfg, w.now), id);
      if id in w.l.processes { CheckAt(w.l, cfg, w.now, CheckHeartbeats(w.l, cfg, w.now), w.l.processes[id]); }
      ListedIff(Snapshot(w.ticks[e.t].phase), id);
    }
  }

  /** A tick may re-assert exactly the rooms that run, are ready with an endpoint and
      are not in its snapshot, one at a time; what it registers is the room as it
      was spawned, requested anew. */
  lemma ReassertsWhatRuns(cfg: Config, ws: seq<World>, es: seq<Event>, n: nat, t: nat, id: Id)
    requires IsRun(cfg, ws, es) && n < |es| && t in ws[n].ticks && ws[n].ticks[t].phase.Recovering?
    ensures var w, p := ws[n], ws[n].ticks[t].phase;
      Enabled(w, EvReassert(t, id)) <==>
        && w.known && p.pending == None && NotListed(p.desired, id)
        && id in w.l.processes && w.l.processes[id] < |w.l.spawns|
        && var s := w.l.spawns[w.l.processes[id]];
          s.life == Ready && s.endpoint.Some? && s.endpoint.value != ""
    ensures es[n] == EvReassert(t, id) ==>
      && id in ws[n].l.processes && ws[n].l.processes[id] < |ws[n].l.spawns| && id in ws[n + 1].records
      && var s := ws[n].l.spawns[ws[n].l.processes[id]];
        ws[n + 1].records[id] == DesiredRoom(s.roomType, s.data, Requested)
  {
    RunBasics(cfg, ws, es, n);
    assert StepAt(cfg, ws, es, n);
    ListedIff(ws[n].ticks[t].phase.desired, id);
    if es[n] == EvReassert(t, id) { ReassertWrites(ws[n], cfg, t, id, ws[n + 1]); }
  }

  // --- the stall clock ---

  /** A message that sets the room's clock: a heartbeat, or the first one of its
      spawn, other than its last words. */
  predicate Beats(w: World, e: Event, id: Id) {
    && e.EvMessage? && e.k < |w.l.spawns| && w.l.spawns[e.k].id == id && !w.l.spawns[e.k].exited
    && id in w.l.processes && !e.msg.NotifyStopped? && (e.msg.NotifyHeartbeat? || !w.l.spawns[e.k].started)
  }

  predicate SameProcess(w: World, w': World, id: Id) {
    id in w.l.processes && id in w'.l.processes && w'.l.processes[id] == w.l.processes[id]
  }

  /** What the step does to the clock of a room. */
  ghost predicate ClockGoesOn(w: World, e: Event, w': World, id: Id) {
    && (Beats(w, e, id) ==> id in w'.l.lastHeartbeats && w'.l.lastHeartbeats[id] == w.now)
    && (!Beats(w, e, id) && id in w'.l.lastHeartbeats ==>
          id in w.l.lastHeartbeats && w'.l.lastHeartbeats[id] == w.l.lastHeartbeats[id])
    && (id in w.l.lastHeartbeats && SameProcess(w, w', id) ==> id in w'.l.lastHeartbeats)
  }

  /** Clocks and processes after a message that is not dropped. */
  lemma MessageClocks(l: Local, k: nat, msg: Notify, now: int, l': Local)
    requires Wf(l) && k < |l.spawns| && !l.spawns[k].exited && l.spawns[k].id in l.processes
    requires l' == OnMessage(l, k, msg, now)
    ensures var id := l.spawns[k].id;
      if msg.NotifyStopped? then
        l'.lastHeartbeats == l.lastHeartbeats - {id} && l'.processes == l.processes - {id}
      else
        && l'.processes == l.processes
        && l'.lastHeartbeats ==
          if msg.NotifyHeartbeat? || !l.spawns[k].started then l.lastHeartbeats[id := now] else l.lastHeartbeats
  {
    var l1 := Heard(l, k, msg, now);
    HeardAfter(l, k, msg, now, k);
    assert l1.lastHeartbeats ==
      if l.spawns[k].started then l.lastHeartbeats else l.lastHeartbeats[l.spawns[k].id := now];
  }

  lemma MessageClock(w: World, e: Event, w': World, id: Id)
    requires LocalOk(w.l) && Enabled(w, e) && e.EvMessage? && w'.l == OnMessage(w.l, e.k, e.msg, w.now)
    ensures ClockGoesOn(w, e, w', id)
  {
    if !w.l.spawns[e.k].exited && w.l.spawns[e.k].id in w.l.processes {
      MessageClocks(w.l, e.k, e.msg, w.now, w'.l);
    } else {
      assert w'.l == w.l;
    }
  }

  /** Clocks and processes go together. */
  lemma ExitClocks(l: Local, k: nat, l': Local)
    requires Wf(l) && k < |l.spawns| && l' == OnExit(l, k)
    ensures (l'.lastHeartbeats == l.lastHeartbeats && l'.processes == l.processes)
      || (exists id: Id :: l'.lastHeartbeats == l.lastHeartbeats - {id} && l'.processes == l.processes - {id})
  {
    var id := l.spawns[k].id;
    if !l.spawns[k].exited && l.spawns[k].started && id in l.processes {
      assert l'.lastHeartbeats == l.lastHeartbeats - {id} && l'.processes == l.processes - {id};
    }
  }

  lemma GoneClock(w: World, e: Event, w': World, gone: Id, id: Id)
    requires !e.EvMessage?
    requires w'.l.lastHeartbeats == w.l.lastHeartbeats - {gone} && w'.l.processes == w.l.processes - {gone}
    ensures ClockGoesOn(w, e, w', id)
  {
  }

  lemma SameClock(w: World, e: Event, w': World, id: Id)
    requires !e.EvMessage? && w'.l.lastHeartbeats == w.l.lastHeartbeats
    ensures ClockGoesOn(w, e, w', id)
  {
  }

  lemma RoomClock(w: World, cfg: Config, e: Event, w': World, id: Id)
    requires LocalOk(w.l) && Enabled(w, e) && AboutRooms(e) && !e.EvMessage? && w'.l == RoomStep(w, cfg, e)
    ensures ClockGoesOn(w, e, w', id)
  {
    match e
    case EvExit(k) =>
      ExitClocks(w.l, k, w'.l);
      if w'.l.lastHeartbeats != w.l.lastHeartbeats {
        var gone: Id :| w'.l.lastHeartbeats == w.l.lastHeartbeats - {gone} && w'.l.processes == w.l.processes - {gone};
        GoneClock(w, e, w', gone, id);
      } else {
        SameClock(w, e, w', id);
      }
    case EvStartFailed(k) => GoneClock(w, e, w', w.l.spawns[k].id, id);
    case _ => SameClock(w, e, w', id);
  }

  lemma FinishClock(l: Local, cfg: Config, desired: seq<Assignment>, reasserted: set<Id>, at: int, now: int,
                    current: bool)
    requires LocalOk(l)
    ensures FinishTick(l, cfg, desired, reasserted, at, now, current).lastHeartbeats == l.lastHeartbeats
  {
    var l0 := l.(previouslyRegistered := true);
    SpawnedKept(l, l0);
    DestroyAllSame(l0, SweepTargets(l0, desired, reasserted, at));
    if current { ReconcileRoomsGrow(DestroyAll(l0, SweepTargets(l0, desired, reasserted, at)), cfg, desired, now); }
  }

  lemma AcceptClock(w: World, cfg: Config, e: Event, w': World, id: Id)
    requires LocalOk(w.l) && Enabled(w, e) && e.EvAccept? && w' == Accept(w, cfg, e.t)
    ensures ClockGoesOn(w, e, w', id)
    ensures w.current == Some(e.t) ==>
      (id in w'.l.lastHeartbeats <==> id in w.l.lastHeartbeats && !Silent(w.l, cfg, w.now, id))
  {
    var tick, l1 := w.ticks[e.t], CheckHeartbeats(w.l, cfg, w.now);
    CheckHeartbeatsSame(w.l, cfg, w.now);
    CheckKeeps(w.l, cfg, w.now, l1, id);
    if SweepsNow(w, e) { FinishClock(l1, cfg, tick.phase.desired, {}, tick.requestedAt, w.now, true); }
    if id in w.l.processes { AcceptTold(w, cfg, e, w', w.l.processes[id]); }
  }

  lemma FinishStepClock(w: World, cfg: Config, e: Event, w': World, id: Id)
    requires LocalOk(w.l) && Enabled(w, e) && e.EvFinish? && w' == TickStep(w, cfg, e)
    ensures ClockGoesOn(w, e, w', id)
  {
    var tick := w.ticks[e.t];
    FinishClock(w.l, cfg, tick.phase.desired, tick.phase.reasserted, tick.requestedAt, w.now, IsCurrent(w, e.t));
    SameClock(w, e, w', id);
  }

  lemma StepClock(w: World, cfg: Config, e: Event, w': World, id: Id)
    requires LocalOk(w.l) && Enabled(w, e) && w' == Step(w, cfg, e)
    ensures ClockGoesOn(w, e, w', id)
  {
    if e.EvMessage? { MessageClock(w, e, w', id); }
    else if AboutRooms(e) { RoomClock(w, cfg, e, w', id); }
    else if e.EvAccept? { AcceptClock(w, cfg, e, w', id); }
    else if e.EvFinish? { FinishStepClock(w, cfg, e, w', id); }
    else { OtherClock(w, cfg, e, w', id); }
  }

  lemma OtherClock(w: World, cfg: Config, e: Event, w': World, id: Id)
    requires LocalOk(w.l) && Enabled(w, e) && w' == Step(w, cfg, e)
    requires !AboutRooms(e) && !e.EvAccept? && !e.EvFinish?
    ensures ClockGoesOn(w, e, w', id)
  {
    assert w'.l.lastHeartbeats == w.l.lastHeartbeats;
    SameClock(w, e, w', id);
  }

  /** The latest beat of the room before index n of the run came at step m. */
  ghost predicate LatestBeat(ws: seq<World>, es: seq<Event>, m: nat, n: nat, id: Id)
    requires |ws| == |es| + 1 && n <= |es|
  {
    && m < n && Beats(ws[m], es[m], id)
    && forall q: nat {:trigger Beats(ws[q], es[q], id)} :: m < q < n ==> !Beats(ws[q], es[q], id)
  }

  /** In any run, a room's clock is the time of its latest beat: its latest
      heartbeat message, or its first message if that came later. */
  lemma {:induction false} ClockIsLatestBeat(cfg: Config, ws: seq<World>, es: seq<Event>, n: nat, id: Id)
    returns (m: nat)
    requires IsRun(cfg, ws, es) && n < |ws| && id in ws[n].l.lastHeartbeats
    ensures LatestBeat(ws, es, m, n, id) && ws[n].l.lastHeartbeats[id] == ws[m].now
    decreases n
  {
    RunClock(cfg, ws, es, n - 1, id);
    if Beats(ws[n - 1], es[n - 1], id) {
      m := n - 1;
    } else {
      m := ClockIsLatestBeat(cfg, ws, es, n - 1, id);
    }
  }

  lemma RunClock(cfg: Config, ws: seq<World>, es: seq<Event>, n: nat, id: Id)
    requires IsRun(cfg, ws, es) && n < |es|
    ensures ClockGoesOn(ws[n], es[n], ws[n + 1], id)
  {
    RunBasics(cfg, ws, es, n);
    assert StepAt(cfg, ws, es, n);
    StepClock(ws[n], cfg, es[n], ws[n + 1], id);
  }

  /** And it has one from a beat on for as long as it keeps its process. */
  lemma {:induction false} BeatStartsClock(cfg: Config, ws: seq<World>, es: seq<Event>, m: nat, n: nat, id: Id)
    requires IsRun(cfg, ws, es) && m < n < |ws| && Beats(ws[m], es[m], id)
    requires forall q: nat {:trigger SameProcess(ws[q], ws[q + 1], id)} :: m < q < n ==>
      SameProcess(ws[q], ws[q + 1], id)
    ensures id in ws[n].l.lastHeartbeats
    decreases n
  {
    RunClock(cfg, ws, es, n - 1, id);
    if m < n - 1 {
      BeatStartsClock(cfg, ws, es, m, n - 1, id);
      assert SameProcess(ws[n - 1], ws[n - 1 + 1], id);
    }
  }

  // --- the stall check ---

  /** In any run, when a current tick gets its answer: a room with a process loses
      it, is killed and reported failed once, exactly when its latest beat is more
      than the stall timeout ago. A room that has not beaten yet, or recently, keeps
      its process, and its clock, and is not reported. */
  lemma CutOffIff(cfg: Config, ws: seq<World>, es: seq<Event>, n: nat, t: nat, id: Id)
    requires IsRun(cfg, ws, es) && n < |es| && es[n] == EvAccept(t) && ws[n].current == Some(t)
    requires id in ws[n].l.processes
    ensures var w, w' := ws[n], ws[n + 1];
      var k := w.l.processes[id];
      var silent := id in w.l.lastHeartbeats && w.now - w.l.lastHeartbeats[id] > cfg.stallMs;
      && k < |w.l.spawns| && k < |w'.l.spawns|
      && (silent <==> !(id in w'.l.processes && w'.l.processes[id] == k))
      && (silent ==> w'.l.spawns[k].killed && w'.l.spawns[k].reports == w.l.spawns[k].reports + [Failure])
      && (!silent ==> w'.l.spawns[k].reports == w.l.spawns[k].reports)
      && (id in w'.l.lastHeartbeats <==> id in w.l.lastHeartbeats && !silent)
      && (id in w'.l.lastHeartbeats ==> w'.l.lastHeartbeats[id] == w.l.lastHeartbeats[id])
  {
    RunBasics(cfg, ws, es, n);
    assert StepAt(cfg, ws, es, n);
    var k := ws[n].l.processes[id];
    StepAsTold(ws[n], cfg, es[n], ws[n + 1], k);
    AcceptClock(ws[n], cfg, es[n], ws[n + 1], id);
    CutOffAsTold(ws[n], cfg, es[n], ws[n + 1], id);
  }

  lemma CutOffAsTold(w: World, cfg: Config, e: Event, w': World, id: Id)
    requires Wf(w.l) && e.EvAccept? && w.current == Some(e.t) && id in w.l.processes
    requires AsTold(w, cfg, e, w', w.l.processes[id])
    ensures var k := w.l.processes[id]; var silent := Silent(w.l, cfg, w.now, id);
      && k < |w'.l.spawns| && (silent <==> !(id in w'.l.processes && w'.l.processes[id] == k))
      && (silent ==> w'.l.spawns[k].killed)
      && w'.l.spawns[k].reports == w.l.spawns[k].reports + if silent then [Failure] else []
  {
  }
}
