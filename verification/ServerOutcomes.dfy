/** What each step of the server does to its rooms, from the outside: which rooms
    it kills, which it stops keeping, what it tells the driver, and which it
    starts (src/server/server.ts). */
module ServerOutcomes {
  import opened Prelude
  import opened Store
  import opened ServerSpec
  import opened ServerInvariant
  import opened ServerRuns

  /** Spawn k is the process filed under its room. */
  predicate Runs(l: Local, k: nat)
    requires k < |l.spawns|
  {
    l.spawns[k].id in l.processes && l.processes[l.spawns[k].id] == k
  }

  /** The room has spoken, and not for longer than the stall timeout. */
  predicate Silent(l: Local, cfg: Config, now: int, id: Id) {
    id in l.lastHeartbeats && now - l.lastHeartbeats[id] > cfg.stallMs
  }

  predicate NotListed(desired: seq<Assignment>, id: Id) { forall i :: 0 <= i < |desired| ==> desired[i].id != id }

  predicate AttemptedSince(l: Local, id: Id, at: int) { id in l.attempted && l.attempted[id] >= at }

  function Snapshot(p: Phase): seq<Assignment> { if p.Asked? then [] else p.desired }

  function Reasserted(p: Phase): set<Id> { if p.Recovering? then p.reasserted else {} }

  function Pending(p: Phase): set<Id> { if p.Recovering? && p.pending.Some? then {p.pending.value} else {} }

  /** The step is the end of tick t, sweep included. */
  predicate SweepsNow(w: World, e: Event) {
    match e
    case EvAccept(t) =>
      t in w.ticks && w.ticks[t].phase.Answered? && w.current == Some(t)
        && !(w.ticks[t].phase.registered && w.l.previouslyRegistered)
    case EvFinish(t) => t in w.ticks && w.ticks[t].phase.Recovering?
    case _ => false
  }

  /** What tick t is told: not listed, not re-asserted, not attempted since it asked. */
  predicate NotWanted(w: World, t: nat, id: Id)
    requires t in w.ticks
  {
    && NotListed(Snapshot(w.ticks[t].phase), id) && id !in Reasserted(w.ticks[t].phase)
    && !AttemptedSince(w.l, id, w.ticks[t].requestedAt)
  }

  predicate CutOffBy(w: World, cfg: Config, e: Event, k: nat)
    requires k < |w.l.spawns|
  {
    e.EvAccept? && w.current == Some(e.t) && Runs(w.l, k) && Silent(w.l, cfg, w.now, w.l.spawns[k].id)
  }

  /** The steps that kill spawn k. */
  predicate Kills(w: World, cfg: Config, e: Event, k: nat)
    requires k < |w.l.spawns|
  {
    || (e.EvStartFailed? && e.k == k)
    || (e.EvUnwanted? && e.id == w.l.spawns[k].id && Runs(w.l, k))
    || (e.EvShutdown? && Runs(w.l, k))
    || CutOffBy(w, cfg, e, k)
    || (SweepsNow(w, e) && Runs(w.l, k) && NotWanted(w, e.t, w.l.spawns[k].id))
  }

  /** The steps after which its room is no longer kept. */
  predicate LetsGo(w: World, cfg: Config, e: Event, k: nat)
    requires k < |w.l.spawns|
  {
    || (e.EvMessage? && e.msg.NotifyStopped? && e.k < |w.l.spawns| && w.l.spawns[e.k].id == w.l.spawns[k].id
          && !w.l.spawns[e.k].exited)
    || (e.EvExit? && e.k < |w.l.spawns| && w.l.spawns[e.k].id == w.l.spawns[k].id && !w.l.spawns[e.k].exited
          && w.l.spawns[e.k].started)
    || (e.EvStartFailed? && e.k < |w.l.spawns| && w.l.spawns[e.k].id == w.l.spawns[k].id)
    || CutOffBy(w, cfg, e, k)
  }

  /** What the driver is told on account of spawn k. */
  function Told(w: World, cfg: Config, e: Event, k: nat): seq<Report>
    requires k < |w.l.spawns|
  {
    if e.EvSpawnSettled? then
      if e.k == k && w.l.spawns[k].gate == Failed then [Failure] else []
    else if !Runs(w.l, k) || e.EvStartFailed? || !LetsGo(w, cfg, e, k) then []
    else if e.EvMessage? then [Unregister]
    else if e.EvExit? && w.l.spawns[k].id in w.l.killedRoomIds then []
    else [Failure]
  }

  /** Spawn k is killed, let go and reported as said. */
  ghost predicate After(l: Local, l': Local, k: nat, kills: bool, goes: bool, told: seq<Report>)
    requires k < |l.spawns|
  {
    && k < |l'.spawns| && l'.spawns[k].id == l.spawns[k].id
    && (l'.spawns[k].killed <==> l.spawns[k].killed || kills)
    && (Runs(l', k) <==> Runs(l, k) && !goes)
    && l'.spawns[k].reports == l.spawns[k].reports + told
  }

  /** The step kills, lets go and reports spawn k exactly as the tables say. */
  ghost predicate AsTold(w: World, cfg: Config, e: Event, w': World, k: nat)
    requires k < |w.l.spawns|
  {
    After(w.l, w'.l, k, Kills(w, cfg, e, k), LetsGo(w, cfg, e, k), Told(w, cfg, e, k))
  }

  // --- the stall check ---

  lemma CheckAt(l: Local, cfg: Config, now: int, l': Local, k: nat)
    requires Wf(l) && k < |l.spawns| && l' == CheckHeartbeats(l, cfg, now)
    ensures |l'.spawns| == |l.spawns| && l'.attempted == l.attempted && l'.spawning == l.spawning && l'.alive == l.alive
    ensures l'.spawns[k] ==
      if Runs(l, k) && Silent(l, cfg, now, l.spawns[k].id)
      then l.spawns[k].(killed := true, reports := l.spawns[k].reports + [Failure])
      else l.spawns[k]
    ensures l'.previouslyRegistered == l.previouslyRegistered && l'.lostSince == l.lostSince && l'.lost == l.lost
  {
  }

  lemma CheckKeeps(l: Local, cfg: Config, now: int, l': Local, id: Id)
    requires LocalOk(l) && l' == CheckHeartbeats(l, cfg, now)
    ensures id in l'.processes <==> id in l.processes && !Silent(l, cfg, now, id)
    ensures id in l'.processes ==> l'.processes[id] == l.processes[id]
    ensures id in l'.lastHeartbeats <==> id in l.lastHeartbeats && !Silent(l, cfg, now, id)
    ensures id in l'.lastHeartbeats ==> l'.lastHeartbeats[id] == l.lastHeartbeats[id]
    ensures id in l'.killedRoomIds <==> id in l.killedRoomIds || (id in l.processes && Silent(l, cfg, now, id))
  {
  }

  // --- the end of a tick ---

  predicate Outdated(l: Local, desired: seq<Assignment>, reasserted: set<Id>, at: int, id: Id) {
    NotListed(desired, id) && id !in reasserted && !AttemptedSince(l, id, at)
  }

  lemma ListedIff(desired: seq<Assignment>, id: Id)
    ensures NotListed(desired, id) <==> id !in IdsOf(desired)
  {
  }

  lemma SweepAt(l: Local, desired: seq<Assignment>, reasserted: set<Id>, at: int, l': Local, k: nat)
    requires Wf(l) && k < |l.spawns| && l' == DestroyAll(l, SweepTargets(l, desired, reasserted, at))
    ensures l'.processes == l.processes && l'.lastHeartbeats == l.lastHeartbeats && |l'.spawns| == |l.spawns|
    ensures l'.spawns[k] == l.spawns[k].(
      killed := l.spawns[k].killed || (Runs(l, k) && Outdated(l, desired, reasserted, at, l.spawns[k].id)))
  {
    ListedIff(desired, l.spawns[k].id);
  }

  lemma SweepMarks(l: Local, desired: seq<Assignment>, reasserted: set<Id>, at: int, l': Local, id: Id)
    requires Wf(l) && l' == DestroyAll(l, SweepTargets(l, desired, reasserted, at))
    ensures id in l'.killedRoomIds <==>
      id in l.killedRoomIds || (id in l.processes && Outdated(l, desired, reasserted, at, id))
  {
    ListedIff(desired, id);
  }

  /** The end of a tick kills what is outdated, and leaves spawns, processes and
      clocks alone otherwise. */
  lemma FinishAt(l: Local, cfg: Config, desired: seq<Assignment>, reasserted: set<Id>, at: int, now: int, current: bool,
                 l': Local, k: nat)
    requires LocalOk(l) && k < |l.spawns| && l' == FinishTick(l, cfg, desired, reasserted, at, now, current)
    ensures k < |l'.spawns| && l'.spawns[k] == l.spawns[k].(
      killed := l.spawns[k].killed || (Runs(l, k) && Outdated(l, desired, reasserted, at, l.spawns[k].id)))
    ensures Runs(l', k) <==> Runs(l, k)
  {
    var l0 := l.(previouslyRegistered := true);
    var l1 := DestroyAll(l0, SweepTargets(l0, desired, reasserted, at));
    SpawnedKept(l, l0);
    DestroyAllSame(l0, SweepTargets(l0, desired, reasserted, at));
    SweepAt(l0, desired, reasserted, at, l1, k);
    if current { ReconcileRoomsKeep(l1, cfg, desired, now, k); }
  }

  lemma ReconcileRoomsKeep(l: Local, cfg: Config, desired: seq<Assignment>, now: int, k: nat)
    requires LocalOk(l) && k < |l.spawns|
    ensures var l' := ReconcileRooms(l, cfg, desired, now);
      && k < |l'.spawns| && l'.spawns[k] == l.spawns[k] && (Runs(l', k) <==> Runs(l, k))
      && l'.lastHeartbeats == l.lastHeartbeats && l'.killedRoomIds == l.killedRoomIds
      && forall id <- l.processes :: id in l'.processes && l'.processes[id] == l.processes[id]
  {
    var l' := ReconcileRooms(l, cfg, desired, now);
    var starts := AllStarts(l, cfg, desired, now);
    ReconcileRoomsGrow(l, cfg, desired, now);
    var id := l.spawns[k].id;
    if id in l'.processes && id !in l.processes { assert id in starts; NewlyFiled(l, cfg, desired, now, id); }
  }

  predicate FiledFrom(l: Local, n: nat, id: Id) { id in l.processes ==> l.processes[id] >= n }

  lemma OneMoreFiled(l: Local, cfg: Config, a: Assignment, now: int, n: nat, id: Id)
    requires FiledFrom(l, n, id) && n <= |l.spawns|
    ensures FiledFrom(ReconcileRoom(l, cfg, a, now), n, id) && n <= |ReconcileRoom(l, cfg, a, now).spawns|
  {
  }

  /** A room that gets its process in the reconcile loop gets a new one. */
  lemma {:induction false} NewlyFiled(l: Local, cfg: Config, desired: seq<Assignment>, now: int, id: Id)
    requires id !in l.processes
    ensures FiledFrom(ReconcileRooms(l, cfg, desired, now), |l.spawns|, id)
    ensures |l.spawns| <= |ReconcileRooms(l, cfg, desired, now).spawns|
    decreases |desired|
  {
    if desired != [] {
      var n := |desired| - 1;
      NewlyFiled(l, cfg, desired[..n], now, id);
      OneMoreFiled(ReconcileRooms(l, cfg, desired[..n], now), cfg, desired[n], now, |l.spawns|, id);
    }
  }

  // --- step by step ---

  lemma CleanupAfter(l: Local, id: Id, reason: Reason, k: nat)
    requires Wf(l) && k < |l.spawns|
    ensures After(l, Cleanup(l, id, reason), k, false, l.spawns[k].id == id,
      if !Runs(l, k) || l.spawns[k].id != id then []
      else if reason.SelfStopped? then [Unregister]
      else if reason.ProcessExited? && id in l.killedRoomIds then []
      else [Failure])
  {
  }

  lemma HeardAfter(l: Local, j: nat, msg: Notify, now: int, k: nat)
    requires Wf(l) && j < |l.spawns| && k < |l.spawns|
    ensures After(l, Heard(l, j, msg, now), k, false, false, [])
    ensures Wf(Heard(l, j, msg, now)) && Heard(l, j, msg, now).processes == l.processes
  {
  }

  lemma SameAfter(l: Local, l': Local, k: nat)
    requires k < |l.spawns| && k < |l'.spawns| && l'.processes == l.processes && l'.spawns[k].id == l.spawns[k].id
    requires l'.spawns[k].killed == l.spawns[k].killed && l'.spawns[k].reports == l.spawns[k].reports
    ensures After(l, l', k, false, false, [])
  {
  }

  lemma MessageAfter(l: Local, j: nat, msg: Notify, now: int, k: nat)
    requires Wf(l) && j < |l.spawns| && k < |l.spawns|
    ensures var goes := msg.NotifyStopped? && l.spawns[j].id == l.spawns[k].id && !l.spawns[j].exited;
      After(l, OnMessage(l, j, msg, now), k, false, goes, if Runs(l, k) && goes then [Unregister] else [])
  {
    if !l.spawns[j].exited && l.spawns[j].id in l.processes {
      var l1 := Heard(l, j, msg, now);
      HeardAfter(l, j, msg, now, k);
      if msg.NotifyStopped? { CleanupAfter(l1, l.spawns[j].id, SelfStopped, k); }
      else { SameAfter(l1, OnMessage(l, j, msg, now), k); }
    } else {
      SameAfter(l, l, k);
    }
  }

  lemma ExitAfter(l: Local, j: nat, k: nat)
    requires Wf(l) && j < |l.spawns| && k < |l.spawns|
    ensures var goes := l.spawns[j].id == l.spawns[k].id && !l.spawns[j].exited && l.spawns[j].started;
      After(l, OnExit(l, j), k, false, goes,
        if Runs(l, k) && goes && l.spawns[k].id !in l.killedRoomIds then [Failure] else [])
  {
    var s := l.spawns[j];
    if !s.exited && s.started {
      var l1 := l.(spawns := l.spawns[j := Exited(s)]);
      SameAfter(l, l1, k);
      CleanupAfter(l1, s.id, ProcessExited, k);
    } else {
      SameAfter(l, OnExit(l, j), k);
    }
  }

  lemma MessageTold(w: World, cfg: Config, e: Event, w': World, k: nat)
    requires LocalOk(w.l) && Enabled(w, e) && e.EvMessage? && k < |w.l.spawns|
    requires w'.l == OnMessage(w.l, e.k, e.msg, w.now)
    ensures AsTold(w, cfg, e, w', k)
  {
    MessageAfter(w.l, e.k, e.msg, w.now, k);
  }

  lemma ExitTold(w: World, cfg: Config, e: Event, w': World, k: nat)
    requires LocalOk(w.l) && Enabled(w, e) && e.EvExit? && k < |w.l.spawns| && w'.l == OnExit(w.l, e.k)
    ensures AsTold(w, cfg, e, w', k)
  {
    ExitAfter(w.l, e.k, k);
  }

  lemma StartFailedAfter(l: Local, j: nat, k: nat)
    requires Wf(l) && j < |l.spawns| && k < |l.spawns|
    ensures After(l, StartFailed(l, j), k, j == k, l.spawns[j].id == l.spawns[k].id, [])
  {
  }

  lemma SettledAfter(l: Local, j: nat, k: nat)
    requires Wf(l) && j < |l.spawns| && k < |l.spawns|
    ensures After(l, SpawnSettled(l, j), k, false, false,
      if j == k && l.spawns[k].gate == Failed then [Failure] else [])
  {
  }

  lemma RejectAfter(l: Local, j: nat, k: nat)
    requires j < |l.spawns| && k < |l.spawns|
    ensures After(l, l.(spawns := l.spawns[j := l.spawns[j].(gate := Rejected)]), k, false, false, [])
  {
  }

  lemma TimeoutAfter(l: Local, j: nat, k: nat)
    requires Wf(l) && j < |l.spawns| && k < |l.spawns|
    ensures After(l, OnStartupTimeout(l, j), k, false, false, [])
  {
    if l.spawns[j].gate == Waiting {
      RejectAfter(l, j, k);
    } else {
      SameAfter(l, l, k);
    }
  }

  lemma TimeoutTold(w: World, cfg: Config, e: Event, w': World, k: nat)
    requires Wf(w.l) && Enabled(w, e) && k < |w.l.spawns| && e.EvStartupTimeout? && w'.l == OnStartupTimeout(w.l, e.k)
    ensures AsTold(w, cfg, e, w', k)
  {
    TimeoutAfter(w.l, e.k, k);
  }

  lemma SettledTold(w: World, cfg: Config, e: Event, w': World, k: nat)
    requires Wf(w.l) && Enabled(w, e) && k < |w.l.spawns| && e.EvSpawnSettled? && w'.l == SpawnSettled(w.l, e.k)
    ensures AsTold(w, cfg, e, w', k)
  {
    SettledAfter(w.l, e.k, k);
  }

  lemma StartFailedTold(w: World, cfg: Config, e: Event, w': World, k: nat)
    requires LocalOk(w.l) && Enabled(w, e) && k < |w.l.spawns| && e.EvStartFailed? && w'.l == StartFailed(w.l, e.k)
    ensures AsTold(w, cfg, e, w', k)
  {
    StartFailedAfter(w.l, e.k, k);
  }

  lemma DestroyAfter(l: Local, id: Id, k: nat)
    requires Wf(l) && k < |l.spawns|
    ensures After(l, Destroy(l, id), k, Runs(l, k) && l.spawns[k].id == id, false, [])
  {
  }

  lemma ShutdownAfter(l: Local, k: nat)
    requires Wf(l) && k < |l.spawns|
    ensures After(l, DestroyAll(l, l.processes.Keys), k, Runs(l, k), false, [])
  {
  }

  lemma DestroyTold(w: World, cfg: Config, e: Event, w': World, k: nat)
    requires LocalOk(w.l) && Enabled(w, e) && k < |w.l.spawns| && (e.EvUnwanted? || e.EvShutdown?)
    requires w'.l == RoomStep(w, cfg, e)
    ensures AsTold(w, cfg, e, w', k)
  {
    if e.EvUnwanted? { DestroyAfter(w.l, e.id, k); } else { ShutdownAfter(w.l, k); }
  }

  lemma PushTold(w: World, cfg: Config, e: Event, w': World, k: nat)
    requires LocalOk(w.l) && Enabled(w, e) && e.EvPush? && k < |w.l.spawns|
    requires w'.l == SpawnAssigned(w.l, cfg, e.a, w.now)
    ensures AsTold(w, cfg, e, w', k)
  {
  }

  lemma FinishTold(w: World, cfg: Config, e: Event, w': World, k: nat)
    requires LocalOk(w.l) && Enabled(w, e) && e.EvFinish? && k < |w.l.spawns| && w' == TickStep(w, cfg, e)
    ensures AsTold(w, cfg, e, w', k)
  {
    var tick := w.ticks[e.t];
    FinishAt(w.l, cfg, tick.phase.desired, tick.phase.reasserted, tick.requestedAt, w.now, IsCurrent(w, e.t), w'.l, k);
  }

  lemma CheckAfter(l: Local, cfg: Config, now: int, k: nat)
    requires LocalOk(l) && k < |l.spawns|
    ensures var cut := Runs(l, k) && Silent(l, cfg, now, l.spawns[k].id);
      After(l, CheckHeartbeats(l, cfg, now), k, cut, cut, if cut then [Failure] else [])
  {
    CheckAt(l, cfg, now, CheckHeartbeats(l, cfg, now), k);
    CheckKeeps(l, cfg, now, CheckHeartbeats(l, cfg, now), l.spawns[k].id);
  }

  lemma FinishAfter(l: Local, cfg: Config, desired: seq<Assignment>, reasserted: set<Id>, at: int, now: int,
                    current: bool, k: nat)
    requires LocalOk(l) && k < |l.spawns|
    ensures After(l, FinishTick(l, cfg, desired, reasserted, at, now, current), k,
      Runs(l, k) && Outdated(l, desired, reasserted, at, l.spawns[k].id), false, [])
  {
    var l' := FinishTick(l, cfg, desired, reasserted, at, now, current);
    FinishAt(l, cfg, desired, reasserted, at, now, current, l', k);
  }

  lemma AfterBoth(l: Local, l1: Local, l': Local, k: nat, cut: bool, kills: bool, told: seq<Report>)
    requires k < |l.spawns| && After(l, l1, k, cut, cut, told) && After(l1, l', k, kills, false, [])
    ensures After(l, l', k, cut || kills, cut, told)
  {
  }

  lemma SweepingTold(w: World, cfg: Config, e: Event, w': World, k: nat)
    requires LocalOk(w.l) && Enabled(w, e) && e.EvAccept? && k < |w.l.spawns| && SweepsNow(w, e)
    requires w'.l == FinishTick(CheckHeartbeats(w.l, cfg, w.now), cfg, w.ticks[e.t].phase.desired, {},
                                w.ticks[e.t].requestedAt, w.now, true)
    ensures AsTold(w, cfg, e, w', k)
  {
    var tick, l1, id := w.ticks[e.t], CheckHeartbeats(w.l, cfg, w.now), w.l.spawns[k].id;
    var cut, outdated := CutOffBy(w, cfg, e, k), NotWanted(w, e.t, id);
    CheckAfter(w.l, cfg, w.now, k);
    CheckAt(w.l, cfg, w.now, l1, k);
    CheckHeartbeatsSame(w.l, cfg, w.now);
    FinishAfter(l1, cfg, tick.phase.desired, {}, tick.requestedAt, w.now, true, k);
    assert outdated == Outdated(l1, tick.phase.desired, {}, tick.requestedAt, id);
    AfterBoth(w.l, l1, w'.l, k, cut, Runs(l1, k) && outdated, if cut then [Failure] else []);
    assert Kills(w, cfg, e, k) == (cut || (Runs(l1, k) && outdated));
  }

  lemma AcceptTold(w: World, cfg: Config, e: Event, w': World, k: nat)
    requires LocalOk(w.l) && Enabled(w, e) && e.EvAccept? && k < |w.l.spawns| && w' == Accept(w, cfg, e.t)
    ensures AsTold(w, cfg, e, w', k)
  {
    if w.current != Some(e.t) {
      SameAfter(w.l, w'.l, k);
    } else if SweepsNow(w, e) {
      SweepingTold(w, cfg, e, w', k);
    } else {
      CheckAfter(w.l, cfg, w.now, k);
      assert Kills(w, cfg, e, k) == CutOffBy(w, cfg, e, k) == LetsGo(w, cfg, e, k);
    }
  }

  /** Every step kills, lets go and reports exactly as the tables say. */
  lemma StepAsTold(w: World, cfg: Config, e: Event, w': World, k: nat)
    requires LocalOk(w.l) && Enabled(w, e) && k < |w.l.spawns| && w' == Step(w, cfg, e)
    ensures AsTold(w, cfg, e, w', k)
  {
    if AboutRooms(e) { RoomTold(w, cfg, e, w', k); }
    else if e.EvAccept? { AcceptTold(w, cfg, e, w', k); }
    else if e.EvFinish? { FinishTold(w, cfg, e, w', k); }
    else { OthersTold(w, cfg, e, w', k); }
  }

  lemma RoomTold(w: World, cfg: Config, e: Event, w': World, k: nat)
    requires LocalOk(w.l) && Enabled(w, e) && AboutRooms(e) && k < |w.l.spawns| && w'.l == RoomStep(w, cfg, e)
    ensures AsTold(w, cfg, e, w', k)
  {
    if e.EvPush? { PushTold(w, cfg, e, w', k); }
    else if e.EvMessage? { MessageTold(w, cfg, e, w', k); }
    else if e.EvExit? { ExitTold(w, cfg, e, w', k); }
    else if e.EvUnwanted? || e.EvShutdown? { DestroyTold(w, cfg, e, w', k); }
    else if e.EvStartFailed? { StartFailedTold(w, cfg, e, w', k); }
    else if e.EvStartupTimeout? { TimeoutTold(w, cfg, e, w', k); }
    else { SettledTold(w, cfg, e, w', k); }
  }

  lemma OthersTold(w: World, cfg: Config, e: Event, w': World, k: nat)
    requires LocalOk(w.l) && Enabled(w, e) && k < |w.l.spawns| && w' == Step(w, cfg, e)
    requires !AboutRooms(e) && !e.EvAccept? && !e.EvFinish?
    ensures AsTold(w, cfg, e, w', k)
  {
    assert w'.l.spawns == w.l.spawns && w'.l.processes == w.l.processes;
    SameAfter(w.l, w'.l, k);
  }

  // --- what a tick knows ---

  /** What the step does to tick t: a tick keeps its request time, and its snapshot
      once it has one; it gains the rooms it has re-asserted. */
  ghost predicate TickGoesOn(w: World, e: Event, w': World, t: nat)
    requires t in w.ticks && t in w'.ticks
  {
    var p, p' := w.ticks[t].phase, w'.ticks[t].phase;
    && w'.ticks[t].requestedAt == w.ticks[t].requestedAt
    && Snapshot(p') == (if e.EvAnswer? && e.t == t then e.desired else Snapshot(p))
    && Reasserted(p') == (if e.EvReasserted? && e.t == t then Reasserted(p) + Pending(p) else Reasserted(p))
  }

  lemma TickStepGoes(w: World, cfg: Config, e: Event, w': World, t: nat)
    requires Wf(w.l) && Enabled(w, e) && AboutTick(e) && w' == TickStep(w, cfg, e) && t in w'.ticks
    ensures t in w.ticks && TickGoesOn(w, e, w', t)
  {
    if e.t != t { assert t in w.ticks && w'.ticks[t] == w.ticks[t]; }
    else if e.EvAccept? { AcceptGoes(w, cfg, t, w'); }
  }

  lemma AcceptGoes(w: World, cfg: Config, t: nat, w': World)
    requires Enabled(w, EvAccept(t)) && w' == Accept(w, cfg, t) && t in w'.ticks
    ensures w'.ticks[t] == w.ticks[t].(phase := Recovering(w.ticks[t].phase.desired, {}, None))
  {
  }

  lemma TickGoes(w: World, cfg: Config, e: Event, w': World, t: nat)
    requires Wf(w.l) && Enabled(w, e) && w' == Step(w, cfg, e) && t < w.nextTick && t in w'.ticks
    ensures t in w.ticks && TickGoesOn(w, e, w', t)
  {
    if AboutTick(e) {
      TickStepGoes(w, cfg, e, w', t);
    } else {
      OtherTicks(w, cfg, e);
    }
  }

  // --- the life of one spawn ---

  /** The step is a message of spawn k that is not dropped. */
  predicate Hears(w: World, e: Event, k: nat)
    requires k < |w.l.spawns|
  {
    e.EvMessage? && e.k == k && !w.l.spawns[k].exited && w.l.spawns[k].id in w.l.processes
  }

  /** The step is the exit of spawn k, the first one told of it. */
  predicate Exits(w: World, e: Event, k: nat)
    requires k < |w.l.spawns|
  {
    e.EvExit? && e.k == k && !w.l.spawns[k].exited
  }

  /** How the step moves the spawn's life on: it has started with its first message,
      is ready with a ready message while starting, gone with its last words or
      its exit; its startup passes with the first message, is rejected by an exit
      or a timeout before it, and has failed once that is caught. */
  ghost predicate LivesOn(w: World, e: Event, w': World, k: nat)
    requires k < |w.l.spawns|
  {
    && k < |w'.l.spawns|
    && var s, s' := w.l.spawns[k], w'.l.spawns[k];
      && (s'.started <==> s.started || Hears(w, e, k))
      && (s'.exited <==> s.exited || Exits(w, e, k))
      && (s'.settled <==> s.settled || (e.EvSpawnSettled? && e.k == k))
      && s'.life == (if Exits(w, e, k) || (Hears(w, e, k) && e.msg.NotifyStopped?) then Gone
                     else if Hears(w, e, k) && e.msg.NotifyReady? && s.life == Starting then Ready
                     else s.life)
      && s'.gate == (if Hears(w, e, k) && !s.started && s.gate == Waiting then Passed
                     else if Exits(w, e, k) && !s.started && s.gate == Waiting then Rejected
                     else if e.EvStartupTimeout? && e.k == k && s.gate == Waiting then Rejected
                     else if e.EvStartFailed? && e.k == k then Failed
                     else s.gate)
      && s'.endpoint == (if e.EvMessage? && e.msg.NotifyReady? && e.k < |w.l.spawns| && Hears(w, e, e.k) && Runs(w.l, k)
                            && w.l.spawns[e.k].id == s.id then Some(e.msg.endpoint)
                         else s.endpoint)
  }

  predicate SameLife(s: Spawn, s': Spawn) {
    s' == s.(killed := s'.killed, reports := s'.reports)
  }

  lemma CleanupLives(l: Local, id: Id, reason: Reason, k: nat)
    requires Wf(l) && k < |l.spawns|
    ensures k < |Cleanup(l, id, reason).spawns| && SameLife(l.spawns[k], Cleanup(l, id, reason).spawns[k])
  {
  }

  /** The spawn after its own message, up to its endpoint. */
  predicate Spoke(s: Spawn, msg: Notify, s': Spawn) {
    && s' == s.(started := true, gate := s'.gate, life := s'.life)
    && s'.gate == (if !s.started && s.gate == Waiting then Passed else s.gate)
    && s'.life == if msg.NotifyStopped? then Gone else if msg.NotifyReady? && s.life == Starting then Ready else s.life
  }

  lemma HeardLives(l: Local, j: nat, msg: Notify, now: int, k: nat)
    requires Wf(l) && j < |l.spawns| && k < |l.spawns|
    ensures var l' := Heard(l, j, msg, now);
      && |l'.spawns| == |l.spawns| && l'.processes == l.processes && Wf(l')
      && (if k == j then Spoke(l.spawns[k], msg, l'.spawns[k]) else l'.spawns[k] == l.spawns[k])
  {
    HeardAfter(l, j, msg, now, k);
  }

  /** What a message that is not dropped does to spawn k. */
  lemma MessageSpawns(l: Local, j: nat, msg: Notify, now: int, l1: Local, l': Local, k: nat)
    requires Wf(l) && j < |l.spawns| && k < |l.spawns| && !l.spawns[j].exited && l.spawns[j].id in l.processes
    requires l1 == Heard(l, j, msg, now) && l' == OnMessage(l, j, msg, now)
    ensures k < |l'.spawns| && k < |l1.spawns|
    ensures if msg.NotifyReady? && l.processes[l.spawns[j].id] == k
      then l'.spawns[k] == l1.spawns[k].(endpoint := Some(msg.endpoint))
      else SameLife(l1.spawns[k], l'.spawns[k])
  {
    HeardLives(l, j, msg, now, k);
    if msg.NotifyStopped? { CleanupLives(l1, l.spawns[j].id, SelfStopped, k); }
  }

  lemma MessageLives(w: World, e: Event, w': World, k: nat)
    requires Wf(w.l) && Enabled(w, e) && e.EvMessage? && k < |w.l.spawns| && w'.l == OnMessage(w.l, e.k, e.msg, w.now)
    ensures LivesOn(w, e, w', k)
  {
    var l, id := w.l, w.l.spawns[e.k].id;
    if !l.spawns[e.k].exited && id in l.processes {
      HeardLives(l, e.k, e.msg, w.now, k);
      MessageSpawns(l, e.k, e.msg, w.now, Heard(l, e.k, e.msg, w.now), w'.l, k);
      assert Runs(l, k) && l.spawns[k].id == id <==> l.processes[id] == k;
    }
  }

  lemma ExitSpawns(l: Local, j: nat, l': Local, k: nat)
    requires Wf(l) && j < |l.spawns| && k < |l.spawns| && l' == OnExit(l, j)
    ensures k < |l'.spawns|
    ensures if k != j || l.spawns[j].exited then SameLife(l.spawns[k], l'.spawns[k])
      else
        l'.spawns[k] == l.spawns[k].(exited := true, life := Gone, reports := l'.spawns[k].reports,
          gate := if !l.spawns[k].started && l.spawns[k].gate == Waiting then Rejected else l.spawns[k].gate)
  {
    var s := l.spawns[j];
    if !s.exited && s.started {
      var l1 := l.(spawns := l.spawns[j := Exited(s)]);
      CleanupSpawns(l1, s.id, ProcessExited, k);
    }
  }

  lemma CleanupSpawns(l: Local, id: Id, reason: Reason, k: nat)
    requires Wf(l) && k < |l.spawns|
    ensures var l' := Cleanup(l, id, reason);
      k < |l'.spawns| && l'.spawns[k] == l.spawns[k].(reports := l'.spawns[k].reports)
  {
  }

  lemma ExitLives(w: World, e: Event, w': World, k: nat)
    requires Wf(w.l) && Enabled(w, e) && e.EvExit? && k < |w.l.spawns| && w'.l == OnExit(w.l, e.k)
    ensures LivesOn(w, e, w', k)
  {
    ExitSpawns(w.l, e.k, w'.l, k);
  }

  lemma StartSpawns(l: Local, j: nat, k: nat)
    requires j < |l.spawns| && k < |l.spawns|
    ensures OnStartupTimeout(l, j).spawns ==
      if l.spawns[j].gate == Waiting then l.spawns[j := l.spawns[j].(gate := Rejected)] else l.spawns
    ensures StartFailed(l, j).spawns == l.spawns[j := l.spawns[j].(gate := Failed, killed := true)]
    ensures |SpawnSettled(l, j).spawns| == |l.spawns|
    ensures SpawnSettled(l, j).spawns[k] ==
      if j == k then l.spawns[k].(settled := true, reports := SpawnSettled(l, j).spawns[k].reports) else l.spawns[k]
  {
  }

  lemma StartLives(w: World, cfg: Config, e: Event, w': World, k: nat)
    requires Wf(w.l) && Enabled(w, e) && k < |w.l.spawns|
    requires e.EvStartupTimeout? || e.EvStartFailed? || e.EvSpawnSettled?
    requires w'.l == RoomStep(w, cfg, e)
    ensures LivesOn(w, e, w', k)
  {
    StartSpawns(w.l, e.k, k);
    if e.EvStartupTimeout? { assert w'.l.spawns == OnStartupTimeout(w.l, e.k).spawns; }
    else if e.EvStartFailed? { assert w'.l.spawns == StartFailed(w.l, e.k).spawns; }
    else { assert w'.l.spawns == SpawnSettled(w.l, e.k).spawns; }
  }

  lemma OtherLives(w: World, e: Event, w': World, k: nat)
    requires k < |w.l.spawns| && k < |w'.l.spawns| && SameLife(w.l.spawns[k], w'.l.spawns[k])
    requires !e.EvMessage? && !e.EvExit? && !e.EvStartupTimeout? && !e.EvStartFailed? && !e.EvSpawnSettled?
    ensures LivesOn(w, e, w', k)
  {
  }

  lemma AcceptLives(w: World, cfg: Config, t: nat, w': World, k: nat)
    requires LocalOk(w.l) && Enabled(w, EvAccept(t)) && k < |w.l.spawns| && w' == Accept(w, cfg, t)
    ensures k < |w'.l.spawns| && SameLife(w.l.spawns[k], w'.l.spawns[k])
  {
    CheckAt(w.l, cfg, w.now, CheckHeartbeats(w.l, cfg, w.now), k);
    if SweepsNow(w, EvAccept(t)) { SweepingLives(w, cfg, t, w', k); }
  }

  lemma SweepingLives(w: World, cfg: Config, t: nat, w': World, k: nat)
    requires LocalOk(w.l) && Enabled(w, EvAccept(t)) && k < |w.l.spawns| && SweepsNow(w, EvAccept(t))
    requires w'.l == FinishTick(CheckHeartbeats(w.l, cfg, w.now), cfg, w.ticks[t].phase.desired, {},
                                w.ticks[t].requestedAt, w.now, true)
    ensures k < |w'.l.spawns| && SameLife(w.l.spawns[k], w'.l.spawns[k])
  {
    var tick, l1 := w.ticks[t], CheckHeartbeats(w.l, cfg, w.now);
    CheckAt(w.l, cfg, w.now, l1, k);
    CheckHeartbeatsSame(w.l, cfg, w.now);
    FinishAt(l1, cfg, tick.phase.desired, {}, tick.requestedAt, w.now, true, w'.l, k);
  }

  lemma FinishLives(w: World, cfg: Config, t: nat, w': World, k: nat)
    requires LocalOk(w.l) && Enabled(w, EvFinish(t)) && k < |w.l.spawns| && w' == TickStep(w, cfg, EvFinish(t))
    ensures k < |w'.l.spawns| && SameLife(w.l.spawns[k], w'.l.spawns[k])
  {
    var tick := w.ticks[t];
    FinishAt(w.l, cfg, tick.phase.desired, tick.phase.reasserted, tick.requestedAt, w.now, IsCurrent(w, t), w'.l, k);
  }

  lemma PushSparesLife(l: Local, cfg: Config, a: Assignment, now: int, k: nat)
    requires k < |l.spawns|
    ensures k < |SpawnAssigned(l, cfg, a, now).spawns| && SpawnAssigned(l, cfg, a, now).spawns[k] == l.spawns[k]
  {
  }

  lemma KillSparesLife(l: Local, id: Id, ids: set<Id>, k: nat)
    requires Wf(l) && k < |l.spawns|
    ensures |Destroy(l, id).spawns| == |DestroyAll(l, ids).spawns| == |l.spawns|
    ensures SameLife(l.spawns[k], Destroy(l, id).spawns[k]) && SameLife(l.spawns[k], DestroyAll(l, ids).spawns[k])
  {
  }

  lemma KillsSpareLife(w: World, cfg: Config, e: Event, w': World, k: nat)
    requires LocalOk(w.l) && Enabled(w, e) && k < |w.l.spawns| && (e.EvPush? || e.EvUnwanted? || e.EvShutdown?)
    requires w'.l == RoomStep(w, cfg, e)
    ensures k < |w'.l.spawns| && SameLife(w.l.spawns[k], w'.l.spawns[k])
  {
    match e
    case EvPush(a) => PushSparesLife(w.l, cfg, a, w.now, k);
    case EvUnwanted(id) => KillSparesLife(w.l, id, {}, k);
    case EvShutdown => KillSparesLife(w.l, "", w.l.processes.Keys, k);
  }

  /** Every step moves every spawn's life on like that. */
  lemma StepLives(w: World, cfg: Config, e: Event, w': World, k: nat)
    requires LocalOk(w.l) && Enabled(w, e) && k < |w.l.spawns| && w' == Step(w, cfg, e)
    ensures LivesOn(w, e, w', k)
  {
    if e.EvMessage? { MessageLives(w, e, w', k); }
    else if e.EvExit? { ExitLives(w, e, w', k); }
    else if e.EvStartupTimeout? || e.EvStartFailed? || e.EvSpawnSettled? { StartLives(w, cfg, e, w', k); }
    else {
      if AboutRooms(e) { KillsSpareLife(w, cfg, e, w', k); }
      else if e.EvAccept? { AcceptLives(w, cfg, e.t, w', k); }
      else if e.EvFinish? { FinishLives(w, cfg, e.t, w', k); }
      else { assert w'.l.spawns == w.l.spawns; }
      OtherLives(w, e, w', k);
    }
  }
}
