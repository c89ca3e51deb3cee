/** What every step of the server keeps. */
module ServerInvariant {
  import opened Prelude
  import opened Store
  import opened ServerSpec

  ghost predicate Spawned(l: Local, id: Id) {
    exists k :: 0 <= k < |l.spawns| && l.spawns[k].id == id
  }

  /** At most one spawn attempt for the room. */
  ghost predicate AtMostOne(l: Local, id: Id) {
    forall j, k :: 0 <= j < |l.spawns| && 0 <= k < |l.spawns| && l.spawns[j].id == id && l.spawns[k].id == id ==> j == k
  }

  /** No other attempt for the room of spawn k. */
  ghost predicate Only(l: Local, k: nat)
    requires k < |l.spawns|
  {
    forall j :: 0 <= j < |l.spawns| && j != k ==> l.spawns[j].id != l.spawns[k].id
  }

  /** Only rooms with a process are watched for stalls; only spawned rooms are
      marked as killed. */
  ghost predicate LocalOk(l: Local) {
    && Wf(l)
    && l.lastHeartbeats.Keys <= l.processes.Keys
    && forall id <- l.killedRoomIds :: Spawned(l, id)
  }

  /** Spawn k, whose room is spawned once: where it is between its start and its
      one report, and that it cannot be reported again. */
  ghost predicate Good(l: Local, k: nat)
    requires k < |l.spawns|
  {
    var s := l.spawns[k];
    && (s.id in l.processes ==> IsRunning(l, k))
    && (s.id in l.lastHeartbeats ==> s.started)
    && (s.id in l.killedRoomIds ==> s.killed)
    && match s.gate
       case Waiting => !s.started && !s.exited && IsRunning(l, k) && s.reports == [] && !s.settled
       case Rejected => !s.started && IsRunning(l, k) && s.reports == [] && !s.settled
       case Failed => !s.started && s.id !in l.processes && s.reports == (if s.settled then [Failure] else [])
       case Passed =>
         && s.started && |s.reports| <= 1
         && (s.id in l.processes ==> s.reports == [])
         && (s.id !in l.processes && !s.killed ==> |s.reports| == 1)
  }

  /** A step that starts no room. */
  ghost predicate Same(l: Local, l': Local) {
    && LocalOk(l')
    && l'.attempted == l.attempted
    && |l'.spawns| == |l.spawns|
    && (forall k :: 0 <= k < |l.spawns| ==> l'.spawns[k].id == l.spawns[k].id)
    && (forall id <- l'.processes :: id in l.processes)
  }

  /** Spawned rooms stay spawned while indexes keep their rooms. */
  lemma SpawnedKept(l: Local, l': Local)
    requires |l.spawns| <= |l'.spawns|
    requires forall k :: 0 <= k < |l.spawns| ==> l'.spawns[k].id == l.spawns[k].id
    ensures forall id :: Spawned(l, id) ==> Spawned(l', id)
  {
    forall id | Spawned(l, id) ensures Spawned(l', id) {
      var k :| 0 <= k < |l.spawns| && l.spawns[k].id == id;
      assert l'.spawns[k].id == id;
    }
  }

  lemma CleanupSame(l: Local, id: Id, reason: Reason)
    requires LocalOk(l)
    ensures Same(l, Cleanup(l, id, reason))
  {
    SpawnedKept(l, Cleanup(l, id, reason));
  }

  lemma CleanupGood(l: Local, id: Id, reason: Reason, k: nat)
    requires LocalOk(l) && k < |l.spawns| && Only(l, k)
    requires Good(l, k) && (id == l.spawns[k].id ==> l.spawns[k].started)
    ensures Good(Cleanup(l, id, reason), k)
  {
  }

  lemma HeardSame(l: Local, k: nat, msg: Notify, now: int)
    requires LocalOk(l) && k < |l.spawns| && l.spawns[k].id in l.processes
    ensures Same(l, Heard(l, k, msg, now))
  {
    SpawnedKept(l, Heard(l, k, msg, now));
  }

  lemma HeardGood(l: Local, j: nat, msg: Notify, now: int, k: nat)
    requires LocalOk(l) && j < |l.spawns| && l.spawns[j].id in l.processes
    requires l.spawns[j].gate != Rejected
    requires k < |l.spawns| && Only(l, k) && Good(l, k)
    ensures Good(Heard(l, j, msg, now), k)
    ensures j == k ==> Heard(l, j, msg, now).spawns[k].started
  {
  }

  lemma SameTwice(l: Local, l1: Local, l2: Local)
    requires Same(l, l1) && Same(l1, l2)
    ensures Same(l, l2)
  {
  }

  lemma OnMessageSame(l: Local, k: nat, msg: Notify, now: int)
    requires LocalOk(l) && k < |l.spawns|
    ensures Same(l, OnMessage(l, k, msg, now))
  {
    var id := l.spawns[k].id;
    if !l.spawns[k].exited && id in l.processes {
      HeardSame(l, k, msg, now);
      var l1 := Heard(l, k, msg, now);
      if msg.NotifyStopped? {
        CleanupSame(l1, id, SelfStopped);
      }
      SameTwice(l, l1, OnMessage(l, k, msg, now)) by {
        SpawnedKept(l1, OnMessage(l, k, msg, now));
      }
    }
  }

  lemma OnMessageGood(l: Local, j: nat, msg: Notify, now: int, k: nat)
    requires LocalOk(l) && j < |l.spawns|
    requires l.spawns[j].gate != Rejected || l.spawns[j].exited
    requires k < |l.spawns| && Only(l, k) && Good(l, k)
    ensures Good(OnMessage(l, j, msg, now), k)
  {
    var id := l.spawns[j].id;
    if !l.spawns[j].exited && id in l.processes {
      HeardSame(l, j, msg, now);
      HeardGood(l, j, msg, now, k);
      var l1 := Heard(l, j, msg, now);
      if msg.NotifyStopped? {
        CleanupGood(l1, id, SelfStopped, k);
      }
    }
  }

  lemma OnExitSame(l: Local, k: nat)
    requires LocalOk(l) && k < |l.spawns|
    ensures Same(l, OnExit(l, k))
  {
    var s := l.spawns[k];
    if !s.exited {
      if s.started {
        var l1 := l.(spawns := l.spawns[k := Exited(s)]);
        SpawnedKept(l, l1);
        CleanupSame(l1, s.id, ProcessExited);
      } else {
        SpawnedKept(l, OnExit(l, k));
      }
    }
  }

  lemma ExitNoted(l: Local, j: nat, k: nat)
    requires LocalOk(l) && j < |l.spawns| && l.spawns[j].started
    requires k < |l.spawns| && Only(l, k) && Good(l, k)
    ensures var l1 := l.(spawns := l.spawns[j := Exited(l.spawns[j])]); LocalOk(l1) && Only(l1, k) && Good(l1, k)
  {
    SpawnedKept(l, l.(spawns := l.spawns[j := Exited(l.spawns[j])]));
  }

  lemma OnExitGood(l: Local, j: nat, k: nat)
    requires LocalOk(l) && j < |l.spawns|
    requires k < |l.spawns| && Only(l, k) && Good(l, k)
    ensures Good(OnExit(l, j), k)
  {
    var s := l.spawns[j];
    if !s.exited && s.started {
      ExitNoted(l, j, k);
      CleanupGood(l.(spawns := l.spawns[j := Exited(s)]), s.id, ProcessExited, k);
    }
  }

  lemma OnStartupTimeoutSame(l: Local, j: nat)
    requires LocalOk(l) && j < |l.spawns|
    ensures Same(l, OnStartupTimeout(l, j))
  {
    SpawnedKept(l, OnStartupTimeout(l, j));
  }

  lemma OnStartupTimeoutGood(l: Local, j: nat, k: nat)
    requires LocalOk(l) && j < |l.spawns|
    requires k < |l.spawns| && Only(l, k) && Good(l, k)
    ensures Good(OnStartupTimeout(l, j), k)
  {
  }

  lemma StartFailedSame(l: Local, j: nat)
    requires LocalOk(l) && j < |l.spawns|
    ensures Same(l, StartFailed(l, j))
  {
    SpawnedKept(l, StartFailed(l, j));
  }

  lemma StartFailedGood(l: Local, j: nat, k: nat)
    requires LocalOk(l) && j < |l.spawns| && l.spawns[j].gate == Rejected
    requires k < |l.spawns| && Only(l, k) && Good(l, k)
    ensures Good(StartFailed(l, j), k)
  {
  }

  lemma SpawnSettledSame(l: Local, j: nat)
    requires LocalOk(l) && j < |l.spawns|
    ensures Same(l, SpawnSettled(l, j))
  {
    SpawnedKept(l, SpawnSettled(l, j));
  }

  lemma SpawnSettledGood(l: Local, j: nat, k: nat)
    requires LocalOk(l) && j < |l.spawns|
    requires !l.spawns[j].settled && (l.spawns[j].gate == Passed || l.spawns[j].gate == Failed)
    requires k < |l.spawns| && Only(l, k) && Good(l, k)
    ensures Good(SpawnSettled(l, j), k)
  {
  }

  lemma DestroyAllSame(l: Local, ids: set<Id>)
    requires LocalOk(l)
    ensures Same(l, DestroyAll(l, ids)) && DestroyAll(l, ids).processes == l.processes
  {
    var l' := DestroyAll(l, ids);
    SpawnedKept(l, l');
    forall i <- l'.killedRoomIds ensures Spawned(l', i) {
      if i in l.processes { assert l'.spawns[l.processes[i]].id == i; }
    }
  }

  lemma DestroyAllGood(l: Local, ids: set<Id>, k: nat)
    requires LocalOk(l)
    requires k < |l.spawns| && Only(l, k) && Good(l, k)
    ensures Good(DestroyAll(l, ids), k)
  {
  }

  lemma DestroySame(l: Local, id: Id)
    requires LocalOk(l)
    ensures Same(l, Destroy(l, id))
  {
    var l' := Destroy(l, id);
    SpawnedKept(l, l');
    forall i <- l'.killedRoomIds ensures Spawned(l', i) {
      if i == id && id in l.processes { assert l'.spawns[l.processes[i]].id == i; }
    }
  }

  lemma DestroyGood(l: Local, id: Id, k: nat)
    requires LocalOk(l)
    requires k < |l.spawns| && Only(l, k) && Good(l, k)
    ensures Good(Destroy(l, id), k)
  {
  }

  lemma CheckHeartbeatsSame(l: Local, cfg: Config, now: int)
    requires LocalOk(l)
    ensures Same(l, CheckHeartbeats(l, cfg, now))
  {
    var l' := CheckHeartbeats(l, cfg, now);
    SpawnedKept(l, l');
    forall i <- l'.killedRoomIds ensures Spawned(l', i) {
      if i in l.processes { assert l'.spawns[l.processes[i]].id == i; }
    }
  }

  lemma CheckHeartbeatsGood(l: Local, cfg: Config, now: int, k: nat)
    requires LocalOk(l)
    requires k < |l.spawns| && Only(l, k) && Good(l, k)
    ensures Good(CheckHeartbeats(l, cfg, now), k)
  {
  }

  // --- steps that may start rooms ---

  /** `starts` are the rooms started by the step, each once, none attempted before. */
  ghost predicate Grown(l: Local, l': Local, starts: set<Id>, now: int) {
    && LocalOk(l')
    && |l.spawns| <= |l'.spawns|
    && (forall k :: 0 <= k < |l.spawns| ==> l'.spawns[k] == l.spawns[k])
    && (forall k :: |l.spawns| <= k < |l'.spawns| ==> l'.spawns[k].id in starts)
    && (forall j, k :: |l.spawns| <= j < k < |l'.spawns| ==> l'.spawns[j].id != l'.spawns[k].id)
    && (forall id <- starts :: id !in l.attempted && id !in l.processes && Spawned(l', id))
    && l'.attempted == (map id | id in l.attempted.Keys + starts :: if id in starts then now else l.attempted[id])
    && l'.processes.Keys <= l.processes.Keys + starts
    && (forall id <- l.processes :: id in l'.processes && l'.processes[id] == l.processes[id])
    && l'.lastHeartbeats == l.lastHeartbeats
    && l'.killedRoomIds == l.killedRoomIds
  }

  function Starts(l: Local, a: Assignment): set<Id> { if Refused(l, a.id) then {} else {a.id} }

  lemma SpawnAssignedGrows(l: Local, cfg: Config, a: Assignment, now: int)
    requires LocalOk(l)
    ensures Grown(l, SpawnAssigned(l, cfg, a, now), Starts(l, a), now)
  {
    var l' := SpawnAssigned(l, cfg, a, now);
    SpawnedKept(l, l');
    if !Refused(l, a.id) {
      assert l'.spawns[|l.spawns|].id == a.id && Spawned(l', a.id);
      assert l'.attempted == map id | id in l.attempted.Keys + {a.id} :: if id in {a.id} then now else l.attempted[id];
    }
  }

  /** Noting a lost room starts nothing. */
  lemma NothingStarts(l: Local, lostSince: map<Id, int>, lost: seq<Id>, now: int)
    requires LocalOk(l)
    ensures Grown(l, l.(lostSince := lostSince, lost := lost), {}, now)
  {
    SpawnedKept(l, l.(lostSince := lostSince, lost := lost));
  }

  lemma AttemptedTwice(a: map<Id, int>, s1: set<Id>, s2: set<Id>, now: int)
    ensures var a1 := map id | id in a.Keys + s1 :: if id in s1 then now else a[id];
      (map id | id in a1.Keys + s2 :: if id in s2 then now else a1[id]) ==
      (map id | id in a.Keys + (s1 + s2) :: if id in s1 + s2 then now else a[id])
  {
  }

  lemma GrownTwice(l: Local, l1: Local, l2: Local, s1: set<Id>, s2: set<Id>, now: int)
    requires Grown(l, l1, s1, now) && Grown(l1, l2, s2, now)
    ensures Grown(l, l2, s1 + s2, now)
  {
    SpawnedKept(l1, l2);
    AttemptedTwice(l.attempted, s1, s2, now);
    forall j, k | |l.spawns| <= j < k < |l2.spawns| ensures l2.spawns[j].id != l2.spawns[k].id {
      if j < |l1.spawns| <= k {
        assert l2.spawns[j] == l1.spawns[j] && l1.spawns[j].id in s1;
        assert l2.spawns[k].id in s2;
      }
    }
  }

  /** A new spawn starts out good, if its room was never spawned before. */
  lemma GrownGood(l: Local, l': Local, cfg: Config, a: Assignment, now: int, k: nat)
    requires LocalOk(l) && l' == SpawnAssigned(l, cfg, a, now)
    requires k < |l'.spawns| && Only(l', k)
    requires k < |l.spawns| ==> Good(l, k)
    ensures Good(l', k)
  {
    if !Refused(l, a.id) {
      assert l'.spawns[|l.spawns|].id == a.id;
      if k == |l.spawns| {
        forall j | 0 <= j < |l.spawns| ensures l.spawns[j].id != a.id { assert l'.spawns[j] == l.spawns[j]; }
        assert !Spawned(l, a.id);
      }
    }
  }

  function AllStarts(l: Local, cfg: Config, desired: seq<Assignment>, now: int): set<Id> {
    if desired == [] then {}
    else
      var n := |desired| - 1;
      var l1 := ReconcileRooms(l, cfg, desired[..n], now);
      var a := desired[n];
      AllStarts(l, cfg, desired[..n], now) + (if a.room.status == Requested then Starts(l1, a) else {})
  }

  lemma ReconcileRoomGrows(l: Local, cfg: Config, a: Assignment, now: int)
    requires LocalOk(l)
    ensures Grown(l, ReconcileRoom(l, cfg, a, now), if a.room.status == Requested then Starts(l, a) else {}, now)
  {
    if a.id in l.processes || a.id in l.spawning || a.room.status != Requested {
      var l' := ReconcileRoom(l, cfg, a, now);
      NothingStarts(l, l'.lostSince, l'.lost, now);
    } else {
      SpawnAssignedGrows(l, cfg, a, now);
    }
  }

  /** Rooms are started only from the list, each at most once. */
  lemma {:induction false} ReconcileRoomsGrow(l: Local, cfg: Config, desired: seq<Assignment>, now: int)
    requires LocalOk(l)
    ensures Grown(l, ReconcileRooms(l, cfg, desired, now), AllStarts(l, cfg, desired, now), now)
    ensures AllStarts(l, cfg, desired, now) <= IdsOf(desired)
    decreases |desired|
  {
    if desired == [] {
      SpawnedKept(l, l);
    } else {
      var n := |desired| - 1;
      var init := desired[..n];
      ReconcileRoomsGrow(l, cfg, init, now);
      var l1 := ReconcileRooms(l, cfg, init, now);
      ReconcileRoomGrows(l1, cfg, desired[n], now);
      GrownTwice(l, l1, ReconcileRooms(l, cfg, desired, now), AllStarts(l, cfg, init, now),
                 if desired[n].room.status == Requested then Starts(l1, desired[n]) else {}, now);
      forall id <- AllStarts(l, cfg, desired, now) ensures id in IdsOf(desired) {
        if id in IdsOf(init) {
          var i :| 0 <= i < n && init[i].id == id;
          assert desired[i].id == id;
        } else {
          assert desired[n].id == id;
        }
      }
    }
  }
}
