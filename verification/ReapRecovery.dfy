/** One whole heartbeat tick against the in-memory driver, and what it does when
    the server's record was deleted since the last one. */
module ReapRecovery {
  import opened Prelude
  import opened Store
  import opened ServerSpec
  import ServerLoop
  import opened MemoryDriver

  /** When the two driver calls that re-assert a room take effect. */
  datatype Calls = Calls(registerAt: int, readyAt: int)

  /** The ready call comes while the requested record still lives. */
  predicate InTime(calls: Calls, ttlMs: int) { calls.readyAt <= calls.registerAt + ttlMs }

  function RestoredRoom(s: Spawn, serverId: Id, createdAt: int): Room {
    Room(s.roomType, serverId, Running, s.endpoint, Some(s.secret), s.data, map[], createdAt, None)
  }

  /** The room is in the driver again if its calls were in time, and gone if not. */
  predicate Settled(st: Store, l: Local, serverId: Id, ttlMs: int, calls: Calls, id: Id)
    requires id in l.processes && l.processes[id] < |l.spawns|
  {
    if InTime(calls, ttlMs) then
      id in st.rooms && st.rooms[id] == RestoredRoom(l.spawns[l.processes[id]], serverId, calls.registerAt)
    else id !in st.rooms
  }

  /** Re-asserting a room leaves every running room and every absent room as it was. */
  ghost predicate KeepsOthers(st: Store, st': Store, id: Id) {
    && st'.servers == st.servers
    && forall r :: r != id ==>
         && (r in st.rooms && st.rooms[r].status == Running ==> r in st'.rooms && st'.rooms[r] == st.rooms[r])
         && (r !in st.rooms ==> r !in st'.rooms)
  }

  function Reasserted(st: Store, id: Id, s: Spawn, serverId: Id, ttlMs: int, calls: Calls): Store
    requires s.endpoint.Some?
  {
    RoomReady(Sweep(RegisterRoom(st, id, NewRoom(s.roomType, serverId, s.data, map[], calls.registerAt, ttlMs)),
                    calls.readyAt),
              id, s.endpoint.value, s.secret).0
  }

  lemma ReassertSettles(st: Store, l: Local, serverId: Id, ttlMs: int, calls: Calls, id: Id)
    requires serverId in st.servers && Recoverable(l, {}, id)
    ensures var st' := Reasserted(st, id, l.spawns[l.processes[id]], serverId, ttlMs, calls);
      Settled(st', l, serverId, ttlMs, calls, id) && KeepsOthers(st, st', id)
  {
  }

  lemma StaysSettled(st: Store, st': Store, l: Local, serverId: Id, ttlMs: int, calls: Calls, id: Id, other: Id)
    requires Recoverable(l, {}, id) && id != other
    requires Settled(st, l, serverId, ttlMs, calls, id) && KeepsOthers(st, st', other)
    ensures Settled(st', l, serverId, ttlMs, calls, id)
  {
  }

  method ReassertRoom(d: Driver, id: Id, s: Spawn, serverId: Id, ttlMs: int, calls: Calls)
    requires s.endpoint.Some? && ttlMs > 0 && serverId in d.servers
    modifies d
    ensures d.View() == Reasserted(old(d.View()), id, s, serverId, ttlMs, calls)
  {
    var result := d.RegisterNewRoom(id, s.roomType, serverId, s.data, map[], ttlMs, calls.registerAt);
    var wanted := d.MarkRoomReady(id, s.endpoint.value, s.secret, calls.readyAt);
  }

  function RecoverableIds(l: Local, desiredIds: set<Id>): set<Id> {
    set id | id in l.processes && Recoverable(l, desiredIds, id)
  }

  method RecoverRooms(s: ServerLoop.Server, d: Driver, serverId: Id, desiredIds: set<Id>, ttlMs: int,
                      at: map<Id, Calls>)
    returns (reasserted: set<Id>)
    requires Wf(s.View()) && ttlMs > 0 && serverId in d.servers && s.processes.Keys <= at.Keys
    modifies d
    ensures d.servers == old(d.servers)
    ensures reasserted == RecoverableIds(s.View(), desiredIds)
    ensures forall id <- reasserted :: Settled(d.View(), s.View(), serverId, ttlMs, at[id], id)
  {
    var todo := s.processes.Keys;
    reasserted := {};
    while todo != {}
      invariant todo <= s.processes.Keys && d.servers == old(d.servers)
      invariant forall id :: id in reasserted <==>
        id in s.processes && id !in todo && Recoverable(s.View(), desiredIds, id)
      invariant forall id <- reasserted :: Settled(d.View(), s.View(), serverId, ttlMs, at[id], id)
      decreases todo
    {
      var id :| id in todo;
      var p := s.spawns[s.processes[id]];
      todo := todo - {id};
      if p.life == Ready && id !in desiredIds && !Missing(p.endpoint) {
        ghost var before := d.View();
        ReassertRoom(d, id, p, serverId, ttlMs, at[id]);
        ReassertSettles(before, s.View(), serverId, ttlMs, at[id], id);
        forall other <- reasserted ensures Settled(d.View(), s.View(), serverId, ttlMs, at[other], other) {
          StaysSettled(before, d.View(), s.View(), serverId, ttlMs, at[other], other, id);
        }
        reasserted := reasserted + {id};
      }
    }
  }

  /** The snapshot as a list, each room with the secret drawn for it. */
  method ListDesired(desired: map<Id, DesiredRoom>, secrets: map<Id, string>) returns (list: seq<Assignment>)
    requires desired.Keys <= secrets.Keys
    ensures Lists(list, desired)
    ensures desired == map[] ==> list == []
  {
    list := [];
    var todo := desired.Keys;
    while todo != {}
      invariant todo <= desired.Keys
      invariant forall id :: id in IdsOf(list) <==> id in desired && id !in todo
      invariant forall i :: 0 <= i < |list| ==> list[i].id in desired && list[i].room == desired[list[i].id]
      invariant forall i, j :: 0 <= i < j < |list| ==> list[i].id != list[j].id
      invariant desired == map[] ==> list == []
      decreases todo
    {
      var id :| id in todo;
      todo := todo - {id};
      IdsOfOneMore(list, Assignment(id, desired[id], secrets[id]));
      forall i | 0 <= i < |list| ensures list[i].id != id { assert list[i].id in IdsOf(list); }
      list := list + [Assignment(id, desired[id], secrets[id])];
    }
    assert IdsOf(list) == desired.Keys;
  }

  lemma IdsOfOneMore(list: seq<Assignment>, a: Assignment)
    ensures IdsOf(list + [a]) == IdsOf(list) + {a.id}
  {
    var more := list + [a];
    forall id | id in IdsOf(list) + {a.id} ensures id in IdsOf(more) {
      if id in IdsOf(list) {
        var i :| 0 <= i < |list| && list[i].id == id;
        assert more[i].id == id;
      } else {
        assert more[|list|].id == id;
      }
    }
  }

  /** The clock readings of one tick. */
  datatype Times = Times(requestedAt: int, answeredAt: int, checkedAt: int, endedAt: int)

  /** A current tick in which every driver call succeeds. It leaves the server as
      FinishTick says. If the server's record was deleted since its last
      heartbeat, then every room that is ready with an endpoint after the stall
      check is in the driver again with its server, data, endpoint and secret, if
      its ready call came within the ttl (the result of that call is ignored: if
      it came later the record is gone), and in either case this tick kills none
      of them. */
  method HeartbeatTick(s: ServerLoop.Server, d: Driver, serverId: Id, endpoint: string, tags: Tags,
                       roomTypes: seq<string>,
                       ttlMs: int, times: Times, at: map<Id, Calls>, secrets: map<Id, string>)
    returns (ghost desired: seq<Assignment>, ghost reasserted: set<Id>)
    requires Wf(s.View()) && ttlMs > 0 && s.processes.Keys <= at.Keys && Integrity(d.View())
    requires d.rooms.Keys <= secrets.Keys
    modifies s, d
    ensures var server := Server(endpoint, tags, roomTypes, times.answeredAt);
      var answered := Sweep(Heartbeat(old(d.View()), serverId, server), times.answeredAt);
      Lists(desired, Desired(answered, serverId))
    ensures s.View() == FinishTick(CheckHeartbeats(old(s.View()), s.cfg, times.checkedAt), s.cfg, desired, reasserted,
                                   times.requestedAt, times.endedAt, true)
    ensures serverId !in old(d.servers) && old(s.previouslyRegistered) ==>
      var l := CheckHeartbeats(old(s.View()), s.cfg, times.checkedAt);
      && desired == [] && reasserted == RecoverableIds(l, {})
      && forall id <- reasserted ::
           && Settled(d.View(), l, serverId, ttlMs, at[id], id)
           && id in s.processes && s.processes[id] == l.processes[id] && s.processes[id] < |s.spawns|
           && s.spawns[s.processes[id]] == l.spawns[l.processes[id]]
  {
    ghost var st := d.View();
    var current, desiredRooms, registered := d.ServerHeartbeat(serverId, endpoint, tags, roomTypes, times.answeredAt);
    s.CheckHeartbeatsNow(times.checkedAt);
    ghost var l := s.View();
    CheckedIsWf(old(s.View()), s.cfg, times.checkedAt);
    var list := ListDesired(desiredRooms, secrets);
    desired := list;
    var kept: set<Id> := {};
    if registered && s.previouslyRegistered {
      NothingDesired(st, serverId, Server(endpoint, tags, roomTypes, times.answeredAt), times.answeredAt);
      kept := RecoverRooms(s, d, serverId, IdsOf(list), ttlMs, at);
    }
    reasserted := kept;
    s.EndTick(list, kept, times.requestedAt, times.endedAt, true);
    if serverId !in old(d.servers) && old(s.previouslyRegistered) {
      forall id <- reasserted ensures
        && id in s.processes && s.processes[id] == l.processes[id] && s.processes[id] < |s.spawns|
        && s.spawns[s.processes[id]] == l.spawns[l.processes[id]]
      {
        ReassertedSpared(l, s.cfg, reasserted, times.requestedAt, times.endedAt, id);
      }
    }
  }

  lemma CheckedIsWf(l: Local, cfg: Config, now: int)
    requires Wf(l)
    ensures Wf(CheckHeartbeats(l, cfg, now))
    ensures CheckHeartbeats(l, cfg, now).processes.Keys <= l.processes.Keys
    ensures CheckHeartbeats(l, cfg, now).previouslyRegistered == l.previouslyRegistered
  {
    ServerLoop.CutOffKeepsWf(l, Stalled(l, cfg, now));
  }

  lemma NothingDesired(st: Store, serverId: Id, server: Server, now: int)
    requires Integrity(st) && serverId !in st.servers
    ensures Desired(Sweep(Heartbeat(st, serverId, server), now), serverId) == map[]
  {
    UnknownServerStartsEmpty(st, serverId, server);
    var st1 := Heartbeat(st, serverId, server);
    forall r | r in st1.rooms ensures st1.rooms[r].serverId != serverId {
      assert r in Desired(st1, serverId) <==> st1.rooms[r].serverId == serverId;
    }
  }

  lemma ReassertedSpared(l: Local, cfg: Config, reasserted: set<Id>, requestedAt: int, now: int, id: Id)
    requires Wf(l) && id in reasserted && id in l.processes
    ensures var l' := FinishTick(l, cfg, [], reasserted, requestedAt, now, true);
      && id in l'.processes && l'.processes[id] == l.processes[id] && l'.processes[id] < |l'.spawns|
      && l'.spawns[l'.processes[id]] == l.spawns[l.processes[id]]
  {
  }
}
