/** The Redis driver's operations as sequences of commands on its keys. Each is
    one step at one instant of the store's clock. */
module RedisDriver {
  import opened Prelude
  import opened Store
  import opened RedisSpec
  import opened RedisExact
  import opened DriverOps

  class Driver {
    const staleServerMs: int
    var rooms: map<Id, Room>
    var roomIds: set<Id>
    var roomsByServer: map<Id, set<Id>>
    var clients: map<Id, Client>
    var clientsByRoom: map<Id, set<Id>>
    var servers: map<Id, Server>
    var serverIds: set<Id>

    ghost function View(): Redis
      reads this
    {
      Redis(rooms, roomIds, roomsByServer, clients, clientsByRoom, servers, serverIds)
    }

    /** HGETALL finds the hash. */
    predicate HasRoom(id: Id, now: int)
      reads this
    {
      id in rooms && Lives(rooms[id].expiresAt, now)
    }

    predicate HasClient(c: Id, now: int)
      reads this
    {
      c in clients && Lives(clients[c].expiresAt, now)
    }

    constructor (staleServerMs: int)
      ensures View() == NoKeys && this.staleServerMs == staleServerMs
      ensures forall now :: Agrees(View(), now) && Abs(View(), now) == Empty
    {
      this.staleServerMs := staleServerMs;
      rooms, roomIds, roomsByServer := map[], {}, map[];
      clients, clientsByRoom := map[], map[];
      servers, serverIds := map[], {};
    }

    // --- rooms ---

    method RegisterNewRoom(id: Id, roomType: string, serverId: Id, data: string, tags: Tags, ttlMs: int, now: int)
      returns (result: RegisterResult)
      modifies this`rooms, this`roomIds, this`roomsByServer
      ensures result == Registering(serverId in old(servers), true, roomType, data, ttlMs)
      ensures View() ==
        if ttlMs <= 0 then old(View())
        else Register(old(View()), now, id, NewRoom(roomType, serverId, data, tags, now, ttlMs))
      ensures Agrees(old(View()), now) && result.Registered? ==>
        (Agrees(View(), now) <==> OwnRoom(old(View()), id, serverId))
      ensures result.Registered? ==>
        (Abs(View(), now) ==
          RegisterRoom(Abs(old(View()), now), id, NewRoom(roomType, serverId, data, tags, now, ttlMs))
         <==> NothingToKeep(old(View()), now, id))
    {
      if ttlMs <= 0 { return BadTtl; }
      if serverId !in servers { return ServerNotFound; }
      ghost var R := View();
      ghost var room := NewRoom(roomType, serverId, data, tags, now, ttlMs);
      RegisterScript(id, roomType, serverId, data, tags, ttlMs, now);
      if Agrees(R, now) { RegisterAgreesIff(R, now, id, room); }
      RegisterIsRegisterIff(R, now, id, room);
      return Registered(DesiredRoom(roomType, data, Requested));
    }

    /** HSET leaves what it does not name; PEXPIRE; both indexes. */
    method RegisterScript(id: Id, roomType: string, serverId: Id, data: string, tags: Tags, ttlMs: int, now: int)
      requires serverId in servers
      modifies this`rooms, this`roomIds, this`roomsByServer
      ensures View() == Register(old(View()), now, id, NewRoom(roomType, serverId, data, tags, now, ttlMs))
    {
      var endpoint: Option<string>, secret: Option<string> := None, None;
      if HasRoom(id, now) { endpoint, secret := rooms[id].endpoint, rooms[id].secret; }
      rooms := rooms[id := Room(roomType, serverId, Requested, endpoint, secret, data, tags, now, None)];
      rooms := rooms[id := rooms[id].(expiresAt := Some(now + ttlMs))];
      roomIds := roomIds + {id};
      roomsByServer := Added(roomsByServer, serverId, id);
      assert View() == Register(old(View()), now, id, NewRoom(roomType, serverId, data, tags, now, ttlMs));
    }

    /** DEL of every client the room's index lists. */
    method DeleteClientHashes(ids: set<Id>)
      modifies this`clients
      ensures clients == old(clients) - ids
    {
      var todo := ids;
      while todo != {}
        invariant todo <= ids && clients == old(clients) - (ids - todo)
        decreases todo
      {
        var c :| c in todo;
        clients := clients - {c};
        todo := todo - {c};
      }
    }

    method UnregisterNow(id: Id, now: int)
      modifies this`rooms, this`roomIds, this`roomsByServer, this`clients, this`clientsByRoom
      ensures View() == UnregisterRoom(old(View()), now, id)
      ensures Agrees(old(View()), now) ==>
        Agrees(View(), now) && Abs(View(), now) == RemoveRooms(Abs(old(View()), now), {id})
    {
      if Agrees(View(), now) {
        UnregisterAgrees(View(), now, id);
        UnregisterIsRemove(View(), now, id);
      }
      UnregisterKeys(id, now);
    }

    method UnregisterKeys(id: Id, now: int)
      modifies this`rooms, this`roomIds, this`roomsByServer, this`clients, this`clientsByRoom
      ensures View() == UnregisterRoom(old(View()), now, id)
    {
      if HasRoom(id, now) {
        roomsByServer := Without(roomsByServer, rooms[id].serverId, {id});
      }
      DeleteClientHashes(Members(clientsByRoom, id));
      clientsByRoom := clientsByRoom - {id};
      rooms := rooms - {id};
      roomIds := roomIds - {id};
    }

    method RoomReadyScript(id: Id, endpoint: string, secret: string, now: int) returns (applied: bool)
      modifies this`rooms
      ensures View() == Ready(old(View()), now, id, endpoint, secret)
      ensures Abs(View(), now) == RoomReady(Abs(old(View()), now), id, endpoint, secret).0
      ensures applied == RoomReady(Abs(old(View()), now), id, endpoint, secret).1
    {
      ReadyIsReady(View(), now, id, endpoint, secret);
      if !HasRoom(id, now) { return false; }
      rooms := rooms[id := rooms[id].(status := Running, endpoint := Some(endpoint), secret := Some(secret))];
      rooms := rooms[id := rooms[id].(expiresAt := None)];
      assert View() == Ready(old(View()), now, id, endpoint, secret);
      return true;
    }

    // --- clients ---

    method ReserveNow(c: Id, roomId: Id, ttlMs: int, tags: Tags, now: int) returns (error: Option<ReserveError>)
      modifies this`clients, this`clientsByRoom
      ensures View() == Reserve(old(View()), now, c, roomId, ttlMs, tags)
      ensures error == CannotReserve(Abs(old(View()), now), roomId)
      ensures ttlMs > 0 ==> Abs(View(), now) == ReserveClient(Abs(old(View()), now), c, roomId, now, ttlMs, tags)
    {
      ReserveIsReserveIff(View(), now, c, roomId, ttlMs, tags);
      if !HasRoom(roomId, now) { return Some(RoomNotFound); }
      var r := rooms[roomId];
      if r.status != Running || Missing(r.secret) || Missing(r.endpoint) { return Some(RoomNotRunning); }
      WriteReservation(c, roomId, ttlMs, tags, now);
      return None;
    }

    /** HSET, PEXPIRE, SADD. */
    method WriteReservation(c: Id, roomId: Id, ttlMs: int, tags: Tags, now: int)
      modifies this`clients, this`clientsByRoom
      ensures clientsByRoom == Added(old(clientsByRoom), roomId, c)
      ensures clients ==
        if ttlMs > 0 then old(clients)[c := Client(roomId, Reserved, Some(now + ttlMs), tags, 0)]
        else old(clients) - {c}
    {
      clients := clients[c := Client(roomId, Reserved, None, tags, 0)];
      if ttlMs > 0 {
        clients := clients[c := clients[c].(expiresAt := Some(now + ttlMs))];
      } else {
        clients := clients - {c};
      }
      clientsByRoom := Added(clientsByRoom, roomId, c);
    }

    /** One MULTI: write the hash, persist it, index it. */
    method ConnectNow(c: Id, roomId: Id, tags: Tags, now: int)
      modifies this`clients, this`clientsByRoom
      ensures View() == Connect(old(View()), now, c, roomId, tags)
      ensures Agrees(old(View()), now) ==> (Agrees(View(), now) <==> OwnClient(old(View()), c, roomId))
      ensures Abs(View(), now) == ConnectClient(Abs(old(View()), now), c, roomId, tags, now)
    {
      if Agrees(View(), now) { PutClientAgreesIff(View(), now, c, Client(roomId, Connected, None, tags, now)); }
      ConnectIsConnect(View(), now, c, roomId, tags);
      clients := clients[c := Client(roomId, Connected, None, tags, now)];
      clientsByRoom := Added(clientsByRoom, roomId, c);
    }

    method DisconnectNow(c: Id, now: int)
      modifies this`clients, this`clientsByRoom
      ensures View() == Disconnect(old(View()), now, c)
      ensures Abs(View(), now) == DisconnectClient(Abs(old(View()), now), c)
    {
      DisconnectIsDisconnect(View(), now, c);
      if HasClient(c, now) {
        clientsByRoom := Without(clientsByRoom, clients[c].roomId, {c});
      }
      clients := clients - {c};
    }

    // --- reads, which drop the stale entries they meet ---

    /** The live hashes among `ids`, and the ids that have none. */
    method ReadRoomHashes(ids: set<Id>, now: int) returns (hashes: map<Id, Room>, stale: set<Id>)
      ensures hashes == map id | id in ids && LiveRoom(View(), now, id) :: rooms[id]
      ensures stale == StaleRooms(View(), now, ids)
    {
      hashes, stale := map[], {};
      var todo := ids;
      while todo != {}
        invariant todo <= ids
        invariant hashes == map id | id in ids && id !in todo && LiveRoom(View(), now, id) :: rooms[id]
        invariant stale == set id | id in ids && id !in todo && !LiveRoom(View(), now, id)
        decreases todo
      {
        var id :| id in todo;
        if HasRoom(id, now) {
          hashes := hashes[id := rooms[id]];
        } else {
          stale := stale + {id};
        }
        todo := todo - {id};
      }
    }

    method GetClientsForRoom(roomId: Id, now: int) returns (found: map<Id, Client>)
      requires Agrees(View(), now)
      modifies this`clientsByRoom
      ensures View() == PruneClients(old(View()), now, {roomId})
      ensures Agrees(View(), now) && Abs(View(), now) == Abs(old(View()), now)
      ensures found == ClientsOf(Abs(View(), now), roomId)
    {
      ghost var R := View();
      ClientIndexIsClients(R, now, roomId);
      PrunedClients(R, now, {roomId});
      var ids := Members(clientsByRoom, roomId);
      var stale: set<Id> := {};
      found := map[];
      var todo := ids;
      while todo != {}
        invariant todo <= ids && View() == R
        invariant found == map c | c in ids && c !in todo && LiveClient(R, now, c) :: clients[c]
        invariant stale == set c | c in ids && c !in todo && !LiveClient(R, now, c)
        decreases todo
      {
        var c :| c in todo;
        if HasClient(c, now) {
          found := found[c := clients[c]];
        } else {
          stale := stale + {c};
        }
        todo := todo - {c};
      }
      assert stale == StaleClients(R, now, ids);
      clientsByRoom := Without(clientsByRoom, roomId, stale);
      assert clientsByRoom == PruneClients(R, now, {roomId}).clientsByRoom;
    }

    /** hashToRoomInfo for each live hash: its clients, their index cleaned up. */
    method RoomInfos(hashes: map<Id, Room>, now: int) returns (infos: map<Id, RoomInfo>)
      requires Agrees(View(), now)
      requires hashes == map id | id in hashes && id in Abs(View(), now).rooms :: Abs(View(), now).rooms[id]
      modifies this`clientsByRoom
      ensures View() == PruneClients(old(View()), now, hashes.Keys)
      ensures Agrees(View(), now) && Abs(View(), now) == Abs(old(View()), now)
      ensures infos == Infos(Abs(View(), now), hashes.Keys)
    {
      ghost var R := View();
      ghost var done: set<Id> := {};
      infos := map[];
      var todo := hashes.Keys;
      PruneNoClients(R, now);
      while todo != {}
        invariant todo <= hashes.Keys && done == hashes.Keys - todo
        invariant View() == PruneClients(R, now, done) && Agrees(View(), now) && Abs(View(), now) == Abs(R, now)
        invariant infos == Infos(Abs(R, now), done)
        decreases todo
      {
        var id :| id in todo;
        PruneOneMoreRoom(R, now, done, id);
        InfosOneMore(Abs(R, now), done, id);
        var found := GetClientsForRoom(id, now);
        infos := infos[id := (hashes[id], found)];
        done := done + {id};
        todo := todo - {id};
      }
      assert done == hashes.Keys;
    }

    method ListRooms(filter: RoomFilter, now: int) returns (found: map<Id, RoomInfo>)
      requires Agrees(View(), now)
      modifies this`roomIds, this`clientsByRoom
      ensures View() == OnKeys(old(View()), now, OpReadRooms(filter))
      ensures Agrees(View(), now) && Abs(View(), now) == Abs(old(View()), now)
      ensures found == Infos(Abs(View(), now), Matching(Abs(View(), now), filter))
    {
      ghost var R := View();
      RoomIdsAreRooms(R, now);
      PruningIsInvisible(R, now, "");
      var hashes, stale := ReadRoomHashes(roomIds, now);
      roomIds := roomIds - stale;
      assert View() == PruneRoomIds(R, now) && hashes.Keys == LiveRooms(R, now, R.roomIds);
      var infos := RoomInfos(hashes, now);
      found := map id | id in infos && Matches(filter, infos[id].0) :: infos[id];
    }

    method GetRoomInfo(id: Id, now: int) returns (info: Option<RoomInfo>)
      requires Agrees(View(), now)
      modifies this`clientsByRoom
      ensures View() == OnKeys(old(View()), now, OpReadRoom(id))
      ensures Agrees(View(), now) && Abs(View(), now) == Abs(old(View()), now)
      ensures info == InfoOf(Abs(View(), now), id)
    {
      if !HasRoom(id, now) { return None; }
      var found := GetClientsForRoom(id, now);
      return Some((rooms[id], found));
    }

    method GetServer(s: Id, now: int) returns (info: Option<map<Id, RoomInfo>>)
      requires Agrees(View(), now)
      modifies this`roomsByServer, this`clientsByRoom
      ensures View() == OnKeys(old(View()), now, OpReadServer(s))
      ensures Agrees(View(), now) && Abs(View(), now) == Abs(old(View()), now)
      ensures info == ServerInfo(Abs(View(), now), s)
    {
      if s !in servers { return None; }
      ghost var R := View();
      ServerIndexIsRooms(R, now, s);
      PruningIsInvisible(R, now, s);
      var hashes, stale := ReadRoomHashes(Members(roomsByServer, s), now);
      roomsByServer := Without(roomsByServer, s, stale);
      assert View() == PruneServerIndex(R, now, s) && hashes.Keys == LiveRooms(R, now, Members(R.roomsByServer, s));
      var infos := RoomInfos(hashes, now);
      return Some(infos);
    }

    method DesiredRooms(s: Id, now: int) returns (desired: map<Id, DesiredRoom>)
      requires Agrees(View(), now)
      modifies this`roomsByServer
      ensures View() == PruneServerIndex(old(View()), now, s)
      ensures Agrees(View(), now) && Abs(View(), now) == Abs(old(View()), now)
      ensures desired == Desired(Abs(View(), now), s)
    {
      ServerIndexIsDesired(View(), now, s);
      PruningIsInvisible(View(), now, s);
      var hashes, stale := ReadRoomHashes(Members(roomsByServer, s), now);
      roomsByServer := Without(roomsByServer, s, stale);
      desired := map id | id in hashes :: DesiredRoom(hashes[id].roomType, hashes[id].data, hashes[id].status);
    }

    // --- servers ---

    /** REAP_SERVER_SCRIPT's loop over the rooms of the server's index. */
    method DeleteRoomKeys(ids: set<Id>)
      modifies this`clients, this`clientsByRoom, this`rooms, this`roomIds
      ensures clients == old(clients) - ClientsIn(old(View()), ids) && clientsByRoom == old(clientsByRoom) - ids
      ensures rooms == old(rooms) - ids && roomIds == old(roomIds) - ids
    {
      ghost var R := View();
      ghost var done: set<Id> := {};
      var todo := ids;
      while todo != {}
        invariant todo <= ids && done == ids - todo
        invariant clients == R.clients - ClientsIn(R, done) && clientsByRoom == R.clientsByRoom - done
        invariant rooms == R.rooms - done && roomIds == R.roomIds - done
        decreases todo
      {
        var r :| r in todo;
        ClientsInOneMore(R, done, r);
        DeleteClientHashes(Members(clientsByRoom, r));
        clientsByRoom := clientsByRoom - {r};
        rooms := rooms - {r};
        roomIds := roomIds - {r};
        done := done + {r};
        todo := todo - {r};
      }
      assert done == ids;
    }

    method DropServerKeys(s: Id)
      modifies this
      ensures View() == DropServers(old(View()), {s})
    {
      ListedOne(View(), s);
      DeleteRoomKeys(Members(roomsByServer, s));
      roomsByServer := roomsByServer - {s};
      servers := servers - {s};
      serverIds := serverIds - {s};
    }

    /** On an existing record it does what the plain maps do iff no live client is
        left behind by an expired room; without a record it deletes by the index. */
    method ReapScript(s: Id, now: int) returns (reaped: bool)
      requires Agrees(View(), now)
      modifies this
      ensures View() == Reap(old(View()), s, now - staleServerMs) && Agrees(View(), now)
      ensures Abs(View(), now) == ReapServer(Abs(old(View()), now), s, now - staleServerMs) <==>
        if s !in old(servers) then LeadsNowhere(old(View()), now, s)
        else !Stale(old(servers)[s], now - staleServerMs) || NoStrays(old(View()), now, {s})
      ensures reaped <==> (s in old(servers) ==> Stale(old(servers)[s], now - staleServerMs))
    {
      ReapIsReapIff(View(), now, s, now - staleServerMs);
      DropServersAgrees(View(), now, {s});
      if s in servers && servers[s].lastHeartbeat >= now - staleServerMs { return false; }
      DropServerKeys(s);
      return true;
    }

    /** unregisterServer: its rooms one by one, then its own keys. */
    method UnregisterServerNow(s: Id, now: int)
      requires Agrees(View(), now)
      modifies this
      ensures View() == DropServers(old(View()), {s}) && Agrees(View(), now)
      ensures Abs(View(), now) == DeleteServers(Abs(old(View()), now), {s}) <==> NoStrays(old(View()), now, {s})
    {
      ghost var R := View();
      DropIsDeleteIff(R, now, {s});
      DropServersAgrees(R, now, {s});
      UnregisterRooms(s, Members(roomsByServer, s), now);
      ListedOne(R, s);
      roomsByServer := roomsByServer - {s};
      servers := servers - {s};
      serverIds := serverIds - {s};
    }

    method UnregisterRooms(s: Id, ids: set<Id>, now: int)
      requires Agrees(View(), now) && ids == Members(roomsByServer, s)
      modifies this`rooms, this`roomIds, this`roomsByServer, this`clients, this`clientsByRoom
      ensures Partly(old(View()), View(), s, ids)
    {
      ghost var R := View();
      assert ServerIndexOk(R, now, s);
      ghost var done: set<Id> := {};
      var todo := ids;
      while todo != {}
        invariant todo <= ids && done == ids - todo && Partly(R, View(), s, done)
        decreases todo
      {
        var r :| r in todo;
        PartlyOneMore(R, View(), now, s, done, r);
        UnregisterKeys(r, now);
        done := done + {r};
        todo := todo - {r};
      }
      assert done == ids;
    }

    /** Evicts every other server on the endpoint. */
    method EvictSameEndpoint(s: Id, endpoint: string, now: int)
      requires Agrees(View(), now)
      modifies this
      ensures View() == DropServers(old(View()), OthersOn(old(View()), s, endpoint)) && Agrees(View(), now)
    {
      ghost var R := View();
      ghost var evicted: set<Id> := {};
      var todo := serverIds;
      DropNone(R);
      while todo != {}
        invariant todo <= R.serverIds && Agrees(View(), now)
        invariant View() == DropServers(R, evicted) && s !in evicted
        invariant forall id :: id in evicted <==> id in OthersOn(R, s, endpoint) && id !in todo
        decreases todo
      {
        var id :| id in todo;
        if id != s && id in servers && servers[id].endpoint == endpoint {
          DropOneMore(R, evicted, id);
          UnregisterServerNow(id, now);
          evicted := evicted + {id};
        }
        todo := todo - {id};
      }
      assert evicted == OthersOn(R, s, endpoint);
    }

    /** The MULTI that writes the server's hash, then the eviction if the hash is
        new, then the desired rooms. */
    method ServerHeartbeat(id: Id, endpoint: string, tags: Tags, roomTypes: seq<string>, now: int)
      returns (current: Tags, desired: map<Id, DesiredRoom>, registered: bool)
      requires Agrees(View(), now)
      modifies this
      ensures var s := Server(endpoint, tags, roomTypes, now);
        && View() == PruneServerIndex(Beat(old(View()), id, s), now, id) && Agrees(View(), now)
        && (Abs(View(), now) == Heartbeat(Abs(old(View()), now), id, s) <==>
              id in old(servers) || NoStrays(old(View()), now, SameEndpoint(Abs(old(View()), now), endpoint)))
        && desired == Desired(Heartbeat(Abs(old(View()), now), id, s), id)
      ensures registered <==> id !in old(servers)
      ensures current == if id in old(servers) then old(servers)[id].tags else tags
    {
      BeatFacts(View(), now, id, Server(endpoint, tags, roomTypes, now));
      registered := WriteAndEvict(id, endpoint, tags, roomTypes, now);
      desired := DesiredRooms(id, now);
      current := servers[id].tags;
    }

    method WriteAndEvict(id: Id, endpoint: string, tags: Tags, roomTypes: seq<string>, now: int)
      returns (registered: bool)
      requires Agrees(View(), now)
      modifies this
      ensures View() == Beat(old(View()), id, Server(endpoint, tags, roomTypes, now)) && Agrees(View(), now)
      ensures registered <==> id !in old(servers)
      ensures id in servers && servers[id].tags == if id in old(servers) then old(servers)[id].tags else tags
    {
      BeatTags(View(), now, id, Server(endpoint, tags, roomTypes, now));
      registered := WriteHash(id, endpoint, tags, roomTypes, now);
      if registered { EvictSameEndpoint(id, endpoint, now); }
    }

    method WriteHash(id: Id, endpoint: string, tags: Tags, roomTypes: seq<string>, now: int) returns (registered: bool)
      requires Agrees(View(), now)
      modifies this`servers, this`serverIds
      ensures View() == WriteServer(old(View()), id, Server(endpoint, tags, roomTypes, now)) && Agrees(View(), now)
      ensures registered <==> id !in old(servers)
    {
      WriteServerAgrees(View(), now, id, Server(endpoint, tags, roomTypes, now));
      registered := id !in servers;
      var kept := if registered then tags else servers[id].tags;
      servers := servers[id := Server(endpoint, kept, roomTypes, now)];
      serverIds := serverIds + {id};
    }

    /** Any operation at any time. */
    method Perform(op: Op, now: int) returns (answer: Answer)
      requires Agrees(View(), now) && (op.OpReap? ==> op.staleServerMs == staleServerMs)
      modifies this
      ensures View() == OnKeys(old(View()), now, op) && answer == KeysAnswer(old(View()), now, op)
    {
      answer := Done;
      if op.OpReadRooms? || op.OpReadRoom? || op.OpReadServer? {
        answer := Read(op, now);
        return;
      }
      match op {
        case OpPass(_) =>
        case OpPrune(_) =>
        case OpRegister(id, roomType, serverId, data, tags, ttlMs) =>
          var result := RegisterNewRoom(id, roomType, serverId, data, tags, ttlMs, now);
          answer := Registration(result);
        case OpUnregister(id) => UnregisterNow(id, now);
        case OpReady(id, endpoint, secret) =>
          var applied := RoomReadyScript(id, endpoint, secret, now);
          answer := Applied(applied);
        case OpReserve(c, roomId, ttlMs, tags) =>
          var error := ReserveNow(c, roomId, ttlMs, tags, now);
          answer := Reservation(error);
        case OpConnect(c, roomId, tags) => ConnectNow(c, roomId, tags, now);
        case OpDisconnect(c) => DisconnectNow(c, now);
        case OpBeat(s, endpoint, tags, roomTypes) =>
          var current, desired, registered := ServerHeartbeat(s, endpoint, tags, roomTypes, now);
          answer := Beaten(current, desired, registered);
        case OpUnregisterServer(s) => UnregisterServerNow(s, now);
        case OpReap(s, _) =>
          var reaped := ReapScript(s, now);
          answer := Applied(reaped);
      }
    }

    method Read(op: Op, now: int) returns (answer: Answer)
      requires Agrees(View(), now) && (op.OpReadRooms? || op.OpReadRoom? || op.OpReadServer?)
      modifies this`roomIds, this`roomsByServer, this`clientsByRoom
      ensures View() == OnKeys(old(View()), now, op) && answer == KeysAnswer(old(View()), now, op)
      ensures Agrees(View(), now) && Abs(View(), now) == Abs(old(View()), now)
    {
      match op {
        case OpReadRooms(filter) =>
          var infos := ListRooms(filter, now);
          answer := Rooms(infos);
        case OpReadRoom(id) =>
          var info := GetRoomInfo(id, now);
          answer := OneRoom(info);
        case OpReadServer(s) =>
          var info := GetServer(s, now);
          answer := OneServer(info);
      }
    }
  }

  /** R1 is R with the rooms of `done` unregistered, up to the index of server s. */
  ghost predicate Partly(R: Redis, R1: Redis, s: Id, done: set<Id>) {
    && R1.clients == R.clients - ClientsIn(R, done) && R1.clientsByRoom == R.clientsByRoom - done
    && R1.rooms == R.rooms - done && R1.roomIds == R.roomIds - done
    && R1.roomsByServer - {s} == R.roomsByServer - {s}
    && R1.servers == R.servers && R1.serverIds == R.serverIds
  }

  lemma BeatFacts(R: Redis, now: int, id: Id, s: Server)
    requires Agrees(R, now)
    ensures var R1 := Beat(R, id, s); var R2 := PruneServerIndex(R1, now, id);
      && Agrees(R1, now) && Agrees(R2, now) && Abs(R2, now) == Abs(R1, now)
      && (Abs(R1, now) == Heartbeat(Abs(R, now), id, s) <==>
            id in R.servers || NoStrays(R, now, SameEndpoint(Abs(R, now), s.endpoint)))
      && Desired(Abs(R1, now), id) == Desired(Heartbeat(Abs(R, now), id, s), id)
  {
    BeatIsHeartbeatIff(R, now, id, s);
    BeatAgrees(R, now, id, s);
    PruningIsInvisible(Beat(R, id, s), now, id);
  }

  lemma BeatTags(R: Redis, now: int, id: Id, s: Server)
    requires Agrees(R, now)
    ensures var R1 := Beat(R, id, s);
      id in R1.servers && R1.servers[id].tags == if id in R.servers then R.servers[id].tags else s.tags
  {
  }

  lemma InfosOneMore(st: Store, done: set<Id>, id: Id)
    requires id in st.rooms
    ensures Infos(st, done + {id}) == Infos(st, done)[id := (st.rooms[id], ClientsOf(st, id))]
  {
  }

  lemma PruneNoClients(R: Redis, now: int)
    ensures PruneClients(R, now, {}) == R
  {
    assert PruneClients(R, now, {}).clientsByRoom == R.clientsByRoom;
  }

  lemma PruneOneMoreRoom(R: Redis, now: int, done: set<Id>, id: Id)
    ensures PruneClients(PruneClients(R, now, done), now, {id}) == PruneClients(R, now, done + {id})
  {
    var R1 := PruneClients(R, now, done);
    forall r | r in R.clientsByRoom
      ensures PruneClients(R1, now, {id}).clientsByRoom[r] == PruneClients(R, now, done + {id}).clientsByRoom[r]
    {
      assert StaleClients(R1, now, R1.clientsByRoom[r]) == StaleClients(R, now, R1.clientsByRoom[r]);
    }
    assert PruneClients(R1, now, {id}).clientsByRoom == PruneClients(R, now, done + {id}).clientsByRoom;
  }

  /** A server's index, read through, is its live rooms. */
  lemma ServerIndexIsRooms(R: Redis, now: int, s: Id)
    requires Agrees(R, now)
    ensures LiveRooms(R, now, Members(R.roomsByServer, s)) == RoomsOf(Abs(R, now), s)
  {
    assert ServerIndexOk(R, now, s);
    forall id ensures LiveRoom(R, now, id) && R.rooms[id].serverId == s ==> id in Members(R.roomsByServer, s) {
      assert RoomOk(R, now, id);
    }
  }

  lemma PartlyOneMore(R: Redis, R1: Redis, now: int, s: Id, done: set<Id>, r: Id)
    requires Partly(R, R1, s, done) && ServerIndexOk(R, now, s) && r in Members(R.roomsByServer, s) && r !in done
    ensures Partly(R, UnregisterRoom(R1, now, r), s, done + {r})
  {
    ClientsInOneMore(R, done, r);
    assert LiveRoom(R1, now, r) ==> LiveRoom(R, now, r) && R1.rooms[r].serverId == s;
  }

  lemma ClientsInOneMore(R: Redis, done: set<Id>, r: Id)
    ensures ClientsIn(R, done + {r}) == ClientsIn(R, done) + Members(R.clientsByRoom, r)
  {
  }

  lemma ListedOne(R: Redis, s: Id)
    ensures Listed(R, {s}) == Members(R.roomsByServer, s)
  {
    forall r | r in Members(R.roomsByServer, s) ensures r in Listed(R, {s}) { assert s in {s}; }
  }

  lemma DropNone(R: Redis)
    ensures DropServers(R, {}) == R
  {
    assert Listed(R, {}) == {} && ClientsIn(R, {}) == {};
  }

  /** Servers dropped one after the other go as all at once. */
  lemma DropOneMore(R: Redis, done: set<Id>, s: Id)
    requires s !in done
    ensures DropServers(DropServers(R, done), {s}) == DropServers(R, done + {s})
  {
    var R1 := DropServers(R, done);
    ListedOne(R1, s);
    ListedOneMore(R, done, s);
    ClientsInRest(R, Listed(R, done), Members(R.roomsByServer, s));
    var a, b := DropServers(R1, {s}), DropServers(R, done + {s});
    assert a.clients == b.clients;
    assert a.rooms == b.rooms && a.clientsByRoom == b.clientsByRoom;
    assert a.roomsByServer == b.roomsByServer && a.servers == b.servers;
  }

  lemma ListedOneMore(R: Redis, done: set<Id>, s: Id)
    ensures Listed(R, done + {s}) == Listed(R, done) + Members(R.roomsByServer, s)
  {
    ListedOne(R, s);
    forall r | r in Listed(R, done) + Listed(R, {s}) ensures r in Listed(R, done + {s}) {
      var t :| t in done + {s} && r in Members(R.roomsByServer, t);
    }
  }

  lemma ClientsInRest(R: Redis, gone: set<Id>, more: set<Id>)
    ensures ClientsIn(R, gone) + ClientsIn(R.(clientsByRoom := R.clientsByRoom - gone), more) ==
      ClientsIn(R, gone + more)
  {
    var R1 := R.(clientsByRoom := R.clientsByRoom - gone);
    forall c | c in ClientsIn(R, gone + more) ensures c in ClientsIn(R, gone) + ClientsIn(R1, more) {
      var r :| r in gone + more && c in Members(R.clientsByRoom, r);
      if r !in gone { assert c in Members(R1.clientsByRoom, r); }
    }
    forall c | c in ClientsIn(R, gone) + ClientsIn(R1, more) ensures c in ClientsIn(R, gone + more) {
      if c in ClientsIn(R, gone) {
        var r :| r in gone && c in Members(R.clientsByRoom, r);
        assert r in gone + more;
      } else {
        var r :| r in more && c in Members(R1.clientsByRoom, r);
        assert r in gone + more && c in Members(R.clientsByRoom, r);
      }
    }
  }
}
