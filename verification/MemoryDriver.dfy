/** The in-memory driver (src/driver/memory.ts): three maps updated in place.
    Assignments pushed to a server are returned to the caller, who hands them on. */
module MemoryDriver {
  import opened Prelude
  import opened Store
  import opened DriverOps

  class Driver {
    const staleServerMs: int
    var rooms: map<Id, Room>
    var clients: map<Id, Client>
    var servers: map<Id, Server>

    ghost function View(): Store
      reads this
    {
      Store(rooms, clients, servers)
    }

    constructor (staleServerMs: int)
      ensures View() == Empty && this.staleServerMs == staleServerMs
    {
      this.staleServerMs := staleServerMs;
      rooms, clients, servers := map[], map[], map[];
    }

    method DeleteClientsForRoom(roomId: Id)
      modifies this`clients
      ensures clients == WithoutClientsOf(old(clients), {roomId})
    {
      var todo := clients.Keys;
      while todo != {}
        invariant todo <= clients.Keys
        invariant clients == map c | c in old(clients) && (old(clients)[c].roomId != roomId || c in todo) ::
          old(clients)[c]
        decreases todo
      {
        var c :| c in todo;
        if clients[c].roomId == roomId {
          clients := clients - {c};
        }
        todo := todo - {c};
      }
    }

    method UnregisterRoom(roomId: Id)
      modifies this`clients, this`rooms
      ensures View() == RemoveRooms(old(View()), {roomId})
    {
      DeleteClientsForRoom(roomId);
      rooms := rooms - {roomId};
    }

    /** Deletes the rooms of `gone` one by one, with their clients. */
    method DeleteRooms(gone: set<Id>)
      modifies this`clients, this`rooms
      ensures View() == RemoveRooms(old(View()), gone)
    {
      var todo := gone;
      ghost var done: set<Id> := {};
      assert View() == RemoveRooms(old(View()), done);
      while todo != {}
        invariant todo <= gone && done == gone - todo
        invariant View() == RemoveRooms(old(View()), done)
        decreases todo
      {
        var r :| r in todo;
        RemoveOneMore(old(View()), done, r);
        UnregisterRoom(r);
        done := done + {r};
        todo := todo - {r};
      }
      assert done == gone;
    }

    method DeleteServerNow(serverId: Id)
      modifies this
      ensures View() == DeleteServer(old(View()), serverId)
    {
      DeleteRooms(set r | r in rooms && rooms[r].serverId == serverId);
      servers := servers - {serverId};
    }

    method SweepExpiredRequestedRooms(now: int)
      modifies this`clients, this`rooms
      ensures View() == Sweep(old(View()), now)
    {
      DeleteRooms(set r | r in rooms && rooms[r].status == Requested && rooms[r].expiresAt.Some?
        && rooms[r].expiresAt.value < now);
    }

    method RegisterNewRoom(id: Id, roomType: string, serverId: Id, data: string, tags: Tags, ttlMs: int, now: int)
      returns (result: RegisterResult)
      modifies this`rooms
      ensures result == Registering(serverId in servers, false, roomType, data, ttlMs)
      ensures View() ==
        if result.Registered? then RegisterRoom(old(View()), id, NewRoom(roomType, serverId, data, tags, now, ttlMs))
        else old(View())
    {
      if serverId !in servers { return ServerNotFound; }
      if ttlMs <= 0 { return BadTtl; }
      rooms := rooms[id := Room(roomType, serverId, Requested, None, None, data, tags, now, Some(now + ttlMs))];
      return Registered(DesiredRoom(roomType, data, Requested));
    }

    method MarkRoomReady(id: Id, endpoint: string, secret: string, now: int) returns (wanted: bool)
      modifies this
      ensures (View(), wanted) == RoomReady(Sweep(old(View()), now), id, endpoint, secret)
    {
      SweepExpiredRequestedRooms(now);
      if id !in rooms { return false; }
      var r := rooms[id];
      r := r.(status := Running);
      r := r.(endpoint := Some(endpoint));
      r := r.(secret := Some(secret));
      r := r.(expiresAt := None);
      rooms := rooms[id := r];
      return true;
    }

    method GetRoomInfo(id: Id, now: int) returns (info: Option<RoomInfo>)
      modifies this
      ensures View() == Sweep(old(View()), now)
      ensures info == InfoOf(View(), id)
    {
      SweepExpiredRequestedRooms(now);
      if id !in rooms { return None; }
      var found := GetClientsForRoom(id);
      return Some((rooms[id], found));
    }

    method GetClientsForRoom(roomId: Id) returns (found: map<Id, Client>)
      ensures found == ClientsOf(View(), roomId)
    {
      found := map[];
      var todo := clients.Keys;
      while todo != {}
        invariant todo <= clients.Keys
        invariant found == map c | c in clients && c !in todo && clients[c].roomId == roomId :: clients[c]
        decreases todo
      {
        var c :| c in todo;
        if clients[c].roomId == roomId {
          found := found[c := clients[c]];
        }
        todo := todo - {c};
      }
    }

    /** Each room of `ids` with its clients. */
    method RoomInfos(ids: set<Id>) returns (infos: map<Id, RoomInfo>)
      requires ids <= rooms.Keys
      ensures infos == Infos(View(), ids)
    {
      infos := map[];
      var todo := ids;
      while todo != {}
        invariant todo <= ids
        invariant infos == Infos(View(), ids - todo)
        decreases todo
      {
        var id :| id in todo;
        var found := GetClientsForRoom(id);
        infos := infos[id := (rooms[id], found)];
        todo := todo - {id};
      }
      assert ids - {} == ids;
    }

    method ListRooms(filter: RoomFilter, now: int) returns (infos: map<Id, RoomInfo>)
      modifies this
      ensures View() == Sweep(old(View()), now) && infos == Infos(View(), Matching(View(), filter))
    {
      SweepExpiredRequestedRooms(now);
      infos := RoomInfos(set id | id in rooms && Matches(filter, rooms[id]));
    }

    /** No sweep here: rooms that have lapsed since the last one are still listed. */
    method GetServer(s: Id) returns (info: Option<map<Id, RoomInfo>>)
      ensures info == ServerInfo(View(), s)
    {
      if s !in servers { return None; }
      var infos := RoomInfos(set id | id in rooms && rooms[id].serverId == s);
      return Some(infos);
    }

    method Reserve(id: Id, roomId: Id, ttlMs: int, tags: Tags, now: int) returns (error: Option<ReserveError>)
      modifies this`clients
      ensures error == CannotReserve(old(View()), roomId)
      ensures View() == ReserveClient(old(View()), id, roomId, now, ttlMs, tags)
    {
      if roomId !in rooms { return Some(RoomNotFound); }
      var r := rooms[roomId];
      if r.status != Running || Missing(r.secret) || Missing(r.endpoint) { return Some(RoomNotRunning); }
      clients := clients[id := Client(roomId, Reserved, Some(now + ttlMs), tags, 0)];
      return None;
    }

    method Connect(id: Id, roomId: Id, tags: Tags, now: int)
      modifies this`clients
      ensures View() == ConnectClient(old(View()), id, roomId, tags, now)
    {
      clients := clients[id := Client(roomId, Connected, None, tags, now)];
    }

    method Disconnect(id: Id)
      modifies this`clients
      ensures View() == DisconnectClient(old(View()), id)
    {
      clients := clients - {id};
    }

    method EvictSameEndpoint(endpoint: string)
      modifies this
      ensures View() == DeleteServers(old(View()), SameEndpoint(old(View()), endpoint))
    {
      DeleteAllServers(set s | s in servers && servers[s].endpoint == endpoint);
    }

    method DeleteAllServers(gone: set<Id>)
      modifies this
      ensures View() == DeleteServers(old(View()), gone)
    {
      var todo := gone;
      ghost var done: set<Id> := {};
      assert View() == DeleteServers(old(View()), done);
      while todo != {}
        invariant todo <= gone && done == gone - todo
        invariant View() == DeleteServers(old(View()), done)
        decreases todo
      {
        var s :| s in todo;
        DeleteOneMoreServer(old(View()), done, s);
        DeleteServerNow(s);
        done := done + {s};
        todo := todo - {s};
      }
      assert done == gone;
    }

    method ServerHeartbeat(id: Id, endpoint: string, tags: Tags, roomTypes: seq<string>, now: int)
      returns (current: Tags, desired: map<Id, DesiredRoom>, registered: bool)
      modifies this
      ensures View() == Sweep(Heartbeat(old(View()), id, Server(endpoint, tags, roomTypes, now)), now)
      ensures registered <==> id !in old(servers)
      ensures id in servers && current == servers[id].tags && desired == Desired(View(), id)
    {
      registered := id !in servers;
      if !registered {
        servers := servers[id := Server(endpoint, servers[id].tags, roomTypes, now)];
      } else {
        EvictSameEndpoint(endpoint);
        servers := servers[id := Server(endpoint, tags, roomTypes, now)];
      }
      current := servers[id].tags;
      SweepExpiredRequestedRooms(now);
      desired := map r | r in rooms && rooms[r].serverId == id ::
        DesiredRoom(rooms[r].roomType, rooms[r].data, rooms[r].status);
    }

    method Reap(id: Id, now: int) returns (reaped: bool)
      modifies this
      ensures View() == ReapServer(old(View()), id, now - staleServerMs)
      ensures reaped <==> id in old(servers) && Stale(old(servers)[id], now - staleServerMs)
    {
      if id !in servers || servers[id].lastHeartbeat >= now - staleServerMs { return false; }
      DeleteServerNow(id);
      return true;
    }

    method DropLapsedReservations(now: int)
      modifies this`clients
      ensures clients == LiveClients(old(clients), now)
    {
      var todo := clients.Keys;
      ghost var before := clients;
      while todo != {}
        invariant todo <= clients.Keys
        invariant clients == map c | c in before && (!ReservationLapsed(before[c], now) || c in todo) :: before[c]
        decreases todo
      {
        var c :| c in todo;
        if ReservationLapsed(clients[c], now) {
          clients := clients - {c};
        }
        todo := todo - {c};
      }
    }

    method PruneRecords(now: int)
      modifies this`clients, this`rooms
      ensures View() == PruneLapsed(old(View()), now)
    {
      SweepExpiredRequestedRooms(now);
      DropLapsedReservations(now);
    }

    method ListStaleServers(cutoff: int) returns (stale: set<Id>)
      ensures stale == StaleServers(View(), cutoff)
    {
      stale := {};
      var todo := servers.Keys;
      while todo != {}
        invariant todo <= servers.Keys
        invariant stale == set s | s in servers && s !in todo && Stale(servers[s], cutoff)
        decreases todo
      {
        var s :| s in todo;
        if servers[s].lastHeartbeat < cutoff {
          stale := stale + {s};
        }
        todo := todo - {s};
      }
    }

    method PruneNow(now: int)
      modifies this
      ensures View() == Prune(old(View()), now, staleServerMs)
    {
      var stale := ListStaleServers(now - staleServerMs);
      DeleteAllServers(stale);
      ghost var left := View();
      PruneRecords(now);
      PruneInTwo(old(View()), stale, left, now, staleServerMs);
    }

    /** Any operation at any time. */
    method Perform(op: Op, now: int) returns (answer: Answer)
      requires op.OpPrune? || op.OpReap? ==> op.staleServerMs == staleServerMs
      modifies this
      ensures View() == OnMaps(old(View()), now, op) && answer == MapsAnswer(old(View()), now, op)
    {
      answer := Done;
      match op {
        case OpPass(_) =>
        case OpPrune(_) => PruneNow(now);
        case OpRegister(id, roomType, serverId, data, tags, ttlMs) =>
          var result := RegisterNewRoom(id, roomType, serverId, data, tags, ttlMs, now);
          answer := Registration(result);
        case OpUnregister(id) => UnregisterRoom(id);
        case OpReady(id, endpoint, secret) =>
          var wanted := MarkRoomReady(id, endpoint, secret, now);
          answer := Applied(wanted);
        case OpReserve(c, roomId, ttlMs, tags) =>
          var error := Reserve(c, roomId, ttlMs, tags, now);
          answer := Reservation(error);
        case OpConnect(c, roomId, tags) => Connect(c, roomId, tags, now);
        case OpDisconnect(c) => Disconnect(c);
        case OpBeat(s, endpoint, tags, roomTypes) =>
          var current, desired, registered := ServerHeartbeat(s, endpoint, tags, roomTypes, now);
          answer := Beaten(current, desired, registered);
        case OpUnregisterServer(s) => DeleteServerNow(s);
        case OpReap(s, _) =>
          var reaped := Reap(s, now);
          answer := Applied(reaped);
        case OpReadRooms(filter) =>
          var infos := ListRooms(filter, now);
          answer := Rooms(infos);
        case OpReadRoom(id) =>
          var info := GetRoomInfo(id, now);
          answer := OneRoom(info);
        case OpReadServer(s) =>
          var info := GetServer(s);
          answer := OneServer(info);
      }
    }
  }

  lemma PruneInTwo(st: Store, stale: set<Id>, left: Store, now: int, staleServerMs: int)
    requires stale == StaleServers(st, now - staleServerMs) && left == DeleteServers(st, stale)
    ensures Prune(st, now, staleServerMs) == PruneLapsed(left, now)
  {
  }
}
