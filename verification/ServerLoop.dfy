/** The server in the source's own form (src/server/server.ts): maps and sets
    that its message handlers, timers and ticks update in place. */
module ServerLoop {
  import opened Prelude
  import opened Store
  import opened ServerSpec

  lemma DestroyIsDestroyAll(l: Local, id: Id)
    requires Wf(l)
    ensures Destroy(l, id) == DestroyAll(l, {id})
  {
    assert DestroyAll(l, {id}).spawns == Destroy(l, id).spawns;
    assert DestroyAll(l, {id}).killedRoomIds == Destroy(l, id).killedRoomIds;
  }

  lemma DestroyNone(l: Local)
    ensures DestroyAll(l, {}) == l
  {
    assert DestroyAll(l, {}).spawns == l.spawns;
    assert DestroyAll(l, {}).killedRoomIds == l.killedRoomIds;
  }

  lemma DestroyKeepsWf(l: Local, ids: set<Id>)
    requires Wf(l)
    ensures Wf(DestroyAll(l, ids))
  {
  }

  lemma DestroyAllTwice(l: Local, ids: set<Id>, more: set<Id>)
    ensures DestroyAll(DestroyAll(l, ids), more) == DestroyAll(l, ids + more)
  {
    var l2, all := DestroyAll(DestroyAll(l, ids), more), DestroyAll(l, ids + more);
    forall k | 0 <= k < |l.spawns| ensures l2.spawns[k] == all.spawns[k] {}
    assert l2.killedRoomIds == all.killedRoomIds;
  }

  lemma DestroyOneMore(l: Local, ids: set<Id>, id: Id)
    requires Wf(l)
    ensures Wf(DestroyAll(l, ids)) && Wf(DestroyAll(l, ids + {id}))
    ensures Destroy(DestroyAll(l, ids), id) == DestroyAll(l, ids + {id})
  {
    DestroyKeepsWf(l, ids);
    DestroyKeepsWf(l, ids + {id});
    DestroyIsDestroyAll(DestroyAll(l, ids), id);
    DestroyAllTwice(l, ids, {id});
  }

  lemma CutOffNone(l: Local)
    ensures CutOff(l, {}) == l
  {
    assert CutOff(l, {}).spawns == l.spawns;
    assert CutOff(l, {}).killedRoomIds == l.killedRoomIds;
    assert l.processes - {} == l.processes && l.lastHeartbeats - {} == l.lastHeartbeats;
  }

  lemma CutOffKeepsWf(l: Local, ids: set<Id>)
    requires Wf(l)
    ensures Wf(CutOff(l, ids))
  {
  }

  lemma CutOffIsCleanup(l: Local, id: Id)
    requires Wf(l) && id in l.processes
    ensures Wf(Destroy(l, id)) && Cleanup(Destroy(l, id), id, HeartbeatTimeout) == CutOff(l, {id})
  {
    var l2, all := Cleanup(Destroy(l, id), id, HeartbeatTimeout), CutOff(l, {id});
    forall k | 0 <= k < |l.spawns| ensures l2.spawns[k] == all.spawns[k] {}
    assert l2.killedRoomIds == all.killedRoomIds;
    assert l2.processes == all.processes && l2.lastHeartbeats == all.lastHeartbeats;
  }

  lemma CutOffTwice(l: Local, ids: set<Id>, more: set<Id>)
    requires ids !! more
    ensures CutOff(CutOff(l, ids), more) == CutOff(l, ids + more)
  {
    var l2, all := CutOff(CutOff(l, ids), more), CutOff(l, ids + more);
    forall k | 0 <= k < |l.spawns| ensures l2.spawns[k] == all.spawns[k] {}
    assert l2.killedRoomIds == all.killedRoomIds;
    assert l2.processes == all.processes && l2.lastHeartbeats == all.lastHeartbeats;
  }

  lemma CutOffOneMore(l: Local, ids: set<Id>, id: Id)
    requires Wf(l) && id !in ids && id in l.processes
    ensures Wf(CutOff(l, ids)) && Wf(Destroy(CutOff(l, ids), id)) && Wf(CutOff(l, ids + {id}))
    ensures Cleanup(Destroy(CutOff(l, ids), id), id, HeartbeatTimeout) == CutOff(l, ids + {id})
  {
    CutOffKeepsWf(l, ids);
    CutOffKeepsWf(l, ids + {id});
    CutOffIsCleanup(CutOff(l, ids), id);
    CutOffTwice(l, ids, {id});
  }

  lemma ReconcileOneMore(l: Local, cfg: Config, desired: seq<Assignment>, i: nat, now: int)
    requires i < |desired|
    ensures ReconcileRooms(l, cfg, desired[..i + 1], now) ==
      ReconcileRoom(ReconcileRooms(l, cfg, desired[..i], now), cfg, desired[i], now)
  {
    assert desired[..i + 1][..i] == desired[..i];
  }

  class Server {
    const cfg: Config
    var alive: bool
    var processes: map<Id, nat>
    var lastHeartbeats: map<Id, int>
    var killedRoomIds: set<Id>
    var spawning: set<Id>
    var attempted: map<Id, int>
    var lostSince: map<Id, int>
    var previouslyRegistered: bool
    var spawns: seq<Spawn>
    var lost: seq<Id>

    ghost function View(): Local
      reads this
    {
      Local(alive, processes, lastHeartbeats, killedRoomIds, spawning, attempted, lostSince, previouslyRegistered,
        spawns, lost)
    }

    constructor (cfg: Config)
      ensures View() == Idle && this.cfg == cfg
    {
      this.cfg := cfg;
      alive, previouslyRegistered := true, false;
      processes, lastHeartbeats, attempted, lostSince := map[], map[], map[], map[];
      killedRoomIds, spawning := {}, {};
      spawns, lost := [], [];
    }

    // --- one room ---

    method SpawnAssignedRoom(a: Assignment, now: int)
      modifies this
      ensures View() == SpawnAssigned(old(View()), cfg, a, now)
    {
      if !alive { return; }
      if a.id in processes { return; }
      if a.id in spawning { return; }
      if a.id in attempted { return; }
      attempted := attempted[a.id := now];
      spawning := spawning + {a.id};
      CreateRoom(a);
    }

    /** Registers the process before running it; without a runner it throws. */
    method CreateRoom(a: Assignment)
      modifies this`processes, this`spawns
      ensures spawns == old(spawns) + [NewSpawn(a, a.room.roomType in cfg.runners)]
      ensures processes == if a.room.roomType in cfg.runners then old(processes)[a.id := |old(spawns)|]
        else old(processes)
    {
      if a.room.roomType in cfg.runners {
        processes := processes[a.id := |spawns|];
        spawns := spawns + [NewSpawn(a, true)];
      } else {
        spawns := spawns + [NewSpawn(a, false)];
      }
    }

    method ReportToDriver(k: nat, r: Report)
      requires k < |spawns|
      modifies this`spawns
      ensures spawns == old(spawns)[k := WithReport(old(spawns)[k], r)]
    {
      spawns := spawns[k := spawns[k].(reports := spawns[k].reports + [r])];
    }

    method CleanupRoom(id: Id, reason: Reason)
      requires Wf(View())
      modifies this`processes, this`lastHeartbeats, this`killedRoomIds, this`spawns
      ensures View() == Cleanup(old(View()), id, reason)
    {
      if id !in processes { return; }
      var k := processes[id];
      processes := processes - {id};
      lastHeartbeats := lastHeartbeats - {id};
      match reason {
        case SelfStopped => ReportToDriver(k, Unregister);
        case HeartbeatTimeout => ReportToDriver(k, Failure);
        case ProcessExited =>
          if id in killedRoomIds {
            killedRoomIds := killedRoomIds - {id};
          } else {
            ReportToDriver(k, Failure);
          }
      }
    }

    method Hear(k: nat, msg: Notify, now: int)
      requires k < |spawns|
      modifies this`lastHeartbeats, this`spawns
      ensures View() == Heard(old(View()), k, msg, now)
    {
      var id := spawns[k].id;
      if !spawns[k].started {
        lastHeartbeats := lastHeartbeats[id := now];
        var gate := if spawns[k].gate == Waiting then Passed else spawns[k].gate;
        spawns := spawns[k := spawns[k].(started := true, gate := gate)];
      }
      if msg.NotifyReady? && spawns[k].life == Starting {
        spawns := spawns[k := spawns[k].(life := Ready)];
      } else if msg.NotifyStopped? {
        spawns := spawns[k := spawns[k].(life := Gone)];
      }
    }

    method Message(k: nat, msg: Notify, now: int)
      requires Wf(View()) && k < |spawns|
      modifies this`processes, this`lastHeartbeats, this`killedRoomIds, this`spawns
      ensures View() == OnMessage(old(View()), k, msg, now)
    {
      var id := spawns[k].id;
      if spawns[k].exited || id !in processes { return; }
      Hear(k, msg, now);
      match msg {
        case NotifyHeartbeat => lastHeartbeats := lastHeartbeats[id := now];
        case NotifyReady(endpoint) =>
          spawns := spawns[processes[id] := spawns[processes[id]].(endpoint := Some(endpoint))];
        case NotifyStopped => CleanupRoom(id, SelfStopped);
        case NotifyOther =>
      }
    }

    method Stopped(k: nat)
      requires Wf(View()) && k < |spawns|
      modifies this`processes, this`lastHeartbeats, this`killedRoomIds, this`spawns
      ensures View() == OnExit(old(View()), k)
    {
      if spawns[k].exited { return; }
      spawns := spawns[k := spawns[k].(exited := true, life := Gone)];
      if !spawns[k].started {
        if spawns[k].gate == Waiting { spawns := spawns[k := spawns[k].(gate := Rejected)]; }
      } else {
        CleanupRoom(spawns[k].id, ProcessExited);
      }
    }

    method StartupTimeout(k: nat)
      requires k < |spawns|
      modifies this`spawns
      ensures View() == OnStartupTimeout(old(View()), k)
    {
      if spawns[k].gate == Waiting { spawns := spawns[k := spawns[k].(gate := Rejected)]; }
    }

    method CatchStartFailure(k: nat)
      requires k < |spawns|
      modifies this`processes, this`lastHeartbeats, this`spawns
      ensures View() == StartFailed(old(View()), k)
    {
      processes := processes - {spawns[k].id};
      lastHeartbeats := lastHeartbeats - {spawns[k].id};
      spawns := spawns[k := spawns[k].(gate := Failed, killed := true)];
    }

    method SettleSpawn(k: nat)
      requires k < |spawns|
      modifies this`spawning, this`spawns
      ensures View() == SpawnSettled(old(View()), k)
    {
      spawns := spawns[k := spawns[k].(settled := true)];
      if spawns[k].gate == Failed { ReportToDriver(k, Failure); }
      spawning := spawning - {spawns[k].id};
    }

    method DestroyWorker(id: Id)
      requires Wf(View())
      modifies this`killedRoomIds, this`spawns
      ensures View() == Destroy(old(View()), id)
    {
      if id !in processes { return; }
      killedRoomIds := killedRoomIds + {id};
      spawns := spawns[processes[id] := spawns[processes[id]].(killed := true)];
    }

    // --- all rooms ---

    method ShutdownAllWorkers()
      requires Wf(View())
      modifies this`killedRoomIds, this`spawns
      ensures View() == DestroyAll(old(View()), old(processes).Keys)
    {
      DestroyWorkers(processes.Keys);
    }

    method DestroyWorkers(ids: set<Id>)
      requires Wf(View())
      modifies this`killedRoomIds, this`spawns
      ensures View() == DestroyAll(old(View()), ids)
    {
      var todo := ids;
      ghost var done: set<Id> := {};
      DestroyNone(View());
      while todo != {}
        invariant todo <= ids && done == ids - todo
        invariant View() == DestroyAll(old(View()), done) && Wf(View())
        decreases todo
      {
        var id :| id in todo;
        DestroyOneMore(old(View()), done, id);
        DestroyWorker(id);
        done := done + {id};
        todo := todo - {id};
      }
      assert done == ids;
    }

    method CutOffRoom(id: Id)
      requires Wf(View()) && Wf(Destroy(View(), id))
      modifies this`processes, this`lastHeartbeats, this`killedRoomIds, this`spawns
      ensures View() == Cleanup(Destroy(old(View()), id), id, HeartbeatTimeout)
    {
      DestroyWorker(id);
      CleanupRoom(id, HeartbeatTimeout);
    }

    /** Kills, forgets and reports every room that has been silent too long. */
    method CheckHeartbeatsNow(now: int)
      requires Wf(View())
      modifies this`processes, this`lastHeartbeats, this`killedRoomIds, this`spawns
      ensures View() == CheckHeartbeats(old(View()), cfg, now)
    {
      ghost var before := View();
      ghost var done := CutOffStalled(now);
      assert done == Stalled(before, cfg, now);
    }

    method CutOffStalled(now: int) returns (ghost done: set<Id>)
      requires Wf(View())
      modifies this`processes, this`lastHeartbeats, this`killedRoomIds, this`spawns
      ensures View() == CutOff(old(View()), done)
      ensures forall id :: id in done <==> IsStalled(old(View()), cfg, id, now)
    {
      ghost var before := View();
      var todo := lastHeartbeats.Keys;
      done := {};
      CutOffNone(before);
      while todo != {}
        invariant todo <= before.lastHeartbeats.Keys && Wf(View())
        invariant View() == CutOff(before, done)
        invariant forall id :: id in done <==> id !in todo && IsStalled(before, cfg, id, now)
        decreases todo
      {
        var id :| id in todo;
        if now - lastHeartbeats[id] > cfg.stallMs && id in processes {
          CutOffOneMore(before, done, id);
          CutOffRoom(id);
          done := done + {id};
        }
        todo := todo - {id};
      }
    }

    method Sweep(desired: seq<Assignment>, reasserted: set<Id>, requestedAt: int)
      requires Wf(View())
      modifies this`killedRoomIds, this`spawns
      ensures View() == DestroyAll(old(View()), SweepTargets(old(View()), desired, reasserted, requestedAt))
    {
      ghost var before := View();
      ghost var done := SweepAll(IdsOf(desired), reasserted, requestedAt);
      assert done == SweepTargets(before, desired, reasserted, requestedAt);
    }

    method SweepAll(desiredIds: set<Id>, reasserted: set<Id>, requestedAt: int) returns (ghost done: set<Id>)
      requires Wf(View())
      modifies this`killedRoomIds, this`spawns
      ensures View() == DestroyAll(old(View()), done)
      ensures forall id :: id in done <==>
        id in processes && Unwanted(old(View()), desiredIds, reasserted, requestedAt, id)
    {
      ghost var before := View();
      var todo := processes.Keys;
      done := {};
      DestroyNone(before);
      while todo != {}
        invariant todo <= processes.Keys && Wf(View())
        invariant View() == DestroyAll(before, done)
        invariant forall id :: id in done <==>
          id in processes && id !in todo && Unwanted(before, desiredIds, reasserted, requestedAt, id)
        decreases todo
      {
        var id :| id in todo;
        var spawnedAfter := id in attempted && attempted[id] >= requestedAt;
        if id !in reasserted && !spawnedAfter && id !in desiredIds {
          DestroyOneMore(before, done, id);
          DestroyWorker(id);
          done := done + {id};
        }
        todo := todo - {id};
      }
    }

    method ReconcileOne(a: Assignment, now: int)
      modifies this
      ensures View() == ReconcileRoom(old(View()), cfg, a, now)
    {
      if a.id in processes || a.id in spawning {
        lostSince := lostSince - {a.id};
        return;
      }
      if a.room.status == Requested {
        SpawnAssignedRoom(a, now);
        return;
      }
      if a.id !in lostSince {
        lostSince := lostSince[a.id := now];
        return;
      }
      if now - lostSince[a.id] < cfg.stallMs { return; }
      lostSince := lostSince - {a.id};
      lost := lost + [a.id];
    }

    method ForgetLost(desiredIds: set<Id>)
      modifies this`lostSince
      ensures lostSince == map id | id in old(lostSince) && id in desiredIds :: old(lostSince)[id]
    {
      var todo := lostSince.Keys;
      while todo != {}
        invariant todo <= lostSince.Keys
        invariant lostSince == map id | id in old(lostSince) && (id in desiredIds || id in todo) :: old(lostSince)[id]
        decreases todo
      {
        var id :| id in todo;
        if id !in desiredIds { lostSince := lostSince - {id}; }
        todo := todo - {id};
      }
    }

    method ForgetAttempts(desired: seq<Assignment>, requestedAt: int, now: int)
      modifies this`attempted
      ensures attempted == map id | id in old(attempted) && !Forgotten(old(View()), desired, requestedAt, now, id) ::
        old(attempted)[id]
    {
      ghost var l := View();
      var desiredIds := IdsOf(desired);
      var todo := attempted.Keys;
      while todo != {}
        invariant todo <= attempted.Keys
        invariant attempted ==
          map id | id in l.attempted && (!Forgotten(l, desired, requestedAt, now, id) || id in todo) ::
          l.attempted[id]
        decreases todo
      {
        var id :| id in todo;
        if id !in desiredIds && attempted[id] < requestedAt {
          if now - attempted[id] > ATTEMPT_RETENTION_MS { attempted := attempted - {id}; }
        }
        todo := todo - {id};
      }
    }

    method ReconcileDesiredRooms(desired: seq<Assignment>, requestedAt: int, now: int)
      modifies this
      ensures View() == ReconcileDesired(old(View()), cfg, desired, requestedAt, now)
    {
      var i := 0;
      while i < |desired|
        invariant 0 <= i <= |desired|
        invariant View() == ReconcileRooms(old(View()), cfg, desired[..i], now)
      {
        ReconcileOneMore(old(View()), cfg, desired, i, now);
        ReconcileOne(desired[i], now);
        i := i + 1;
      }
      assert desired[..i] == desired;
      ForgetLost(IdsOf(desired));
      ForgetAttempts(desired, requestedAt, now);
    }

    method EndTick(desired: seq<Assignment>, reasserted: set<Id>, requestedAt: int, now: int, current: bool)
      requires Wf(View())
      modifies this
      ensures View() == FinishTick(old(View()), cfg, desired, reasserted, requestedAt, now, current)
    {
      previouslyRegistered := true;
      Sweep(desired, reasserted, requestedAt);
      if !current { return; }
      ReconcileDesiredRooms(desired, requestedAt, now);
    }

    /** The tick's continuation after the driver's answer: discard it if stale,
        else check for stalls, then recover rooms or end the tick. */
    method AcceptAnswer(desired: seq<Assignment>, registered: bool, requestedAt: int, now: int, current: bool,
                        ghost w: World, ghost t: nat)
      returns (recovering: bool)
      requires Wf(View()) && w.l == View() && w.now == now && t in w.ticks
      requires w.ticks[t] == Tick(requestedAt, Answered(desired, registered)) && current == IsCurrent(w, t)
      modifies this
      ensures View() == ServerSpec.Accept(w, cfg, t).l
      ensures recovering <==> t in ServerSpec.Accept(w, cfg, t).ticks
    {
      if !current { return false; }
      CutOffKeepsWf(View(), Stalled(View(), cfg, now));
      CheckHeartbeatsNow(now);
      if registered && previouslyRegistered { return true; }
      EndTick(desired, {}, requestedAt, now, true);
      return false;
    }

    /** Whatever happens next to a room, the server takes the specified step. */
    method HandleRoomEvent(e: Event, now: int, ghost w: World)
      requires Wf(View()) && w.l == View() && w.now == now && Enabled(w, e) && AboutRooms(e)
      modifies this
      ensures View() == RoomStep(w, cfg, e)
    {
      match e {
        case EvPush(a) => SpawnAssignedRoom(a, now);
        case EvMessage(k, msg) => Message(k, msg, now);
        case EvExit(k) => Stopped(k);
        case EvStartupTimeout(k) => StartupTimeout(k);
        case EvStartFailed(k) => CatchStartFailure(k);
        case EvSpawnSettled(k) => SettleSpawn(k);
        case EvUnwanted(id) => DestroyWorker(id);
        case EvShutdown => ShutdownAllWorkers();
      }
    }

    method Stop()
      modifies this`alive
      ensures View() == old(View()).(alive := false)
    {
      alive := false;
    }
  }
}
