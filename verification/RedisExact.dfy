/** Where the Redis keys and the plain maps part: for each command, the exact
    condition under which what the keys say afterwards is what the in-memory
    driver's operation makes of what they said before. */
module RedisExact {
  import opened Prelude
  import opened Store
  import opened RedisSpec

  // --- commands that never part ---

  lemma UnregisterIsRemove(R: Redis, now: int, id: Id)
    requires Agrees(R, now)
    ensures Abs(UnregisterRoom(R, now, id), now) == RemoveRooms(Abs(R, now), {id})
  {
    var a, b := Abs(UnregisterRoom(R, now, id), now), RemoveRooms(Abs(R, now), {id});
    forall c ensures c in a.clients <==> c in b.clients { assert ClientOk(R, now, c) && ClientIndexOk(R, now, id); }
    assert a.rooms == b.rooms;
    assert a.clients == b.clients;
  }

  lemma ReadyIsReady(R: Redis, now: int, id: Id, endpoint: string, secret: string)
    ensures Abs(Ready(R, now, id, endpoint, secret), now) == RoomReady(Abs(R, now), id, endpoint, secret).0
    ensures LiveRoom(R, now, id) == RoomReady(Abs(R, now), id, endpoint, secret).1
  {
    assert Abs(Ready(R, now, id, endpoint, secret), now).rooms == RoomReady(Abs(R, now), id, endpoint, secret).0.rooms;
  }

  lemma PutClientIsPut(R: Redis, now: int, c: Id, client: Client)
    requires Lives(client.expiresAt, now)
    ensures Abs(PutClient(R, c, client), now) == Abs(R, now).(clients := Abs(R, now).clients[c := client])
  {
    assert Abs(PutClient(R, c, client), now).clients == Abs(R, now).clients[c := client];
  }

  /** Connecting is the upsert, whatever the state of the room. */
  lemma ConnectIsConnect(R: Redis, now: int, c: Id, roomId: Id, tags: Tags)
    ensures Abs(Connect(R, now, c, roomId, tags), now) == ConnectClient(Abs(R, now), c, roomId, tags, now)
  {
    PutClientIsPut(R, now, c, Client(roomId, Connected, None, tags, now));
  }

  lemma DisconnectIsDisconnect(R: Redis, now: int, c: Id)
    ensures Abs(Disconnect(R, now, c), now) == DisconnectClient(Abs(R, now), c)
  {
    assert Abs(Disconnect(R, now, c), now).clients == DisconnectClient(Abs(R, now), c).clients;
  }

  // --- commands that may ---

  /** The id is free, or its live record has no endpoint and no secret to keep. */
  predicate NothingToKeep(R: Redis, now: int, id: Id) {
    LiveRoom(R, now, id) ==> R.rooms[id].endpoint == None && R.rooms[id].secret == None
  }

  lemma RegisterIsRegisterIff(R: Redis, now: int, id: Id, room: Room)
    requires Lives(room.expiresAt, now) && room.endpoint == None && room.secret == None
    ensures Abs(Register(R, now, id, room), now) == RegisterRoom(Abs(R, now), id, room) <==>
      room.serverId !in R.servers || NothingToKeep(R, now, id)
  {
    var a, b := Abs(Register(R, now, id, room), now), RegisterRoom(Abs(R, now), id, room);
    if room.serverId in R.servers {
      assert a.rooms[id] == Merged(R, now, id, room) && b.rooms[id] == room;
      if NothingToKeep(R, now, id) { assert a.rooms == b.rooms; }
    }
  }

  lemma ReserveIsReserveIff(R: Redis, now: int, c: Id, roomId: Id, ttlMs: int, tags: Tags)
    ensures var a := Abs(Reserve(R, now, c, roomId, ttlMs, tags), now);
      var b := ReserveClient(Abs(R, now), c, roomId, now, ttlMs, tags);
      a == b <==> CannotReserve(Abs(R, now), roomId).Some? || ttlMs > 0
  {
    if CannotReserve(Abs(R, now), roomId).None? {
      if ttlMs > 0 {
        PutClientIsPut(R, now, c, Client(roomId, Reserved, Some(now + ttlMs), tags, 0));
      } else {
        assert c !in Abs(Reserve(R, now, c, roomId, ttlMs, tags), now).clients;
        assert c in ReserveClient(Abs(R, now), c, roomId, now, ttlMs, tags).clients;
      }
    }
  }

  /** No live client belongs to an expired room that an index of `gone` still lists. */
  predicate NoStrays(R: Redis, now: int, gone: set<Id>) {
    forall c <- R.clients :: LiveClient(R, now, c) && R.clients[c].roomId in Listed(R, gone) ==>
      LiveRoom(R, now, R.clients[c].roomId)
  }

  /** What an index-driven deletion leaves, room by room and client by client. */
  lemma DroppedAt(R: Redis, now: int, gone: set<Id>, id: Id)
    requires Agrees(R, now)
    ensures var a := Abs(DropServers(R, gone), now);
      && (id in a.rooms <==> LiveRoom(R, now, id) && R.rooms[id].serverId !in gone)
      && (id in a.clients <==> LiveClient(R, now, id) && R.clients[id].roomId !in Listed(R, gone))
  {
    if LiveRoom(R, now, id) { DroppedRoom(R, now, gone, id); }
    if LiveClient(R, now, id) { DroppedClient(R, now, gone, id); }
  }

  predicate OwnedBy(R: Redis, now: int, gone: set<Id>, roomId: Id) {
    LiveRoom(R, now, roomId) && R.rooms[roomId].serverId in gone
  }

  lemma DeletedAt(R: Redis, now: int, gone: set<Id>, id: Id)
    requires Agrees(R, now)
    ensures var b := DeleteServers(Abs(R, now), gone);
      && (id in b.rooms <==> LiveRoom(R, now, id) && R.rooms[id].serverId !in gone)
      && (id in b.clients <==> LiveClient(R, now, id) && !OwnedBy(R, now, gone, R.clients[id].roomId))
  {
  }

  /** Deleting by the indexes deletes exactly the servers' live rooms and their
      clients, unless a live client is left behind by an expired room. */
  lemma DropIsDeleteIff(R: Redis, now: int, gone: set<Id>)
    requires Agrees(R, now)
    ensures Abs(DropServers(R, gone), now) == DeleteServers(Abs(R, now), gone) <==> NoStrays(R, now, gone)
    ensures Abs(DropServers(R, gone), now).rooms == DeleteServers(Abs(R, now), gone).rooms
    ensures Abs(DropServers(R, gone), now).servers == DeleteServers(Abs(R, now), gone).servers
  {
    var a, b := Abs(DropServers(R, gone), now), DeleteServers(Abs(R, now), gone);
    forall id ensures id in a.rooms <==> id in b.rooms {
      DroppedAt(R, now, gone, id);
      DeletedAt(R, now, gone, id);
    }
    assert a.rooms == b.rooms;
    forall c ensures (c in a.clients <==> c in b.clients) <==> !IsStray(R, now, gone, c) {
      DroppedAt(R, now, gone, c);
      DeletedAt(R, now, gone, c);
      if LiveClient(R, now, c) && LiveRoom(R, now, R.clients[c].roomId) {
        DroppedRoom(R, now, gone, R.clients[c].roomId);
      }
    }
    if NoStrays(R, now, gone) {
      forall c ensures c in a.clients <==> c in b.clients { assert !IsStray(R, now, gone, c); }
      assert a.clients == b.clients;
    } else {
      var c :| c in R.clients && LiveClient(R, now, c) && R.clients[c].roomId in Listed(R, gone)
               && !LiveRoom(R, now, R.clients[c].roomId);
      assert IsStray(R, now, gone, c);
      assert a.clients.Keys != b.clients.Keys;
    }
  }

  predicate IsStray(R: Redis, now: int, gone: set<Id>, c: Id) {
    LiveClient(R, now, c) && R.clients[c].roomId in Listed(R, gone) && !LiveRoom(R, now, R.clients[c].roomId)
  }

  /** The write changes no index and no room, and the new server is not evicted. */
  lemma NewServerWritten(R: Redis, now: int, id: Id, s: Server, R1: Redis)
    requires Agrees(R, now) && id !in R.servers && R1 == WriteServer(R, id, s)
    ensures Agrees(R1, now) && Abs(R1, now) == Abs(R, now).(servers := Abs(R, now).servers[id := s])
    ensures OthersOn(R1, id, s.endpoint) == SameEndpoint(Abs(R, now), s.endpoint)
    ensures forall gone :: Listed(R1, gone) == Listed(R, gone)
  {
    WriteServerAgrees(R, now, id, s);
  }

  lemma SameStrays(R: Redis, R1: Redis, now: int, gone: set<Id>)
    requires R1.rooms == R.rooms && R1.clients == R.clients && R1.roomsByServer == R.roomsByServer
    ensures NoStrays(R1, now, gone) <==> NoStrays(R, now, gone)
  {
    assert Listed(R1, gone) == Listed(R, gone);
  }

  lemma NewBeatIff(R: Redis, now: int, id: Id, s: Server)
    requires Agrees(R, now) && id !in R.servers
    ensures Abs(Beat(R, id, s), now) == Heartbeat(Abs(R, now), id, s) <==>
      NoStrays(R, now, SameEndpoint(Abs(R, now), s.endpoint))
    ensures Desired(Abs(Beat(R, id, s), now), id) == Desired(Heartbeat(Abs(R, now), id, s), id)
  {
    var R1 := WriteServer(R, id, s);
    var others := SameEndpoint(Abs(R, now), s.endpoint);
    NewServerWritten(R, now, id, s, R1);
    DropIsDeleteIff(R1, now, others);
    EvictThenInsert(Abs(R, now), id, s);
    SameStrays(R, R1, now, others);
  }

  /** A heartbeat does what it does to plain maps, unless evicting finds strays. */
  lemma BeatIsHeartbeatIff(R: Redis, now: int, id: Id, s: Server)
    requires Agrees(R, now)
    ensures Abs(Beat(R, id, s), now) == Heartbeat(Abs(R, now), id, s) <==>
      id in R.servers || NoStrays(R, now, SameEndpoint(Abs(R, now), s.endpoint))
    ensures Desired(Abs(Beat(R, id, s), now), id) == Desired(Heartbeat(Abs(R, now), id, s), id)
  {
    if id !in R.servers { NewBeatIff(R, now, id, s); }
    else { assert Abs(Beat(R, id, s), now) == Heartbeat(Abs(R, now), id, s); }
  }

  /** Inserting before evicting the others ends as evicting before inserting. */
  lemma EvictThenInsert(st: Store, id: Id, s: Server)
    requires id !in st.servers
    ensures DeleteServers(st.(servers := st.servers[id := s]), SameEndpoint(st, s.endpoint)) == Heartbeat(st, id, s)
  {
    var gone := SameEndpoint(st, s.endpoint);
    assert st.servers[id := s] - gone == (st.servers - gone)[id := s];
  }

  /** The index of a server without a record leads to nothing. */
  predicate LeadsNowhere(R: Redis, now: int, s: Id) {
    && (forall id <- R.rooms :: LiveRoom(R, now, id) ==> R.rooms[id].serverId != s)
    && (forall c <- R.clients :: LiveClient(R, now, c) ==> R.clients[c].roomId !in Listed(R, {s}))
  }

  /** What deleting by one server's index leaves. */
  lemma DroppedOneAt(R: Redis, now: int, s: Id, id: Id)
    requires Agrees(R, now)
    ensures var a := Abs(DropServers(R, {s}), now);
      && (id in a.rooms <==> LiveRoom(R, now, id) && R.rooms[id].serverId != s)
      && (id in a.clients <==> LiveClient(R, now, id) && R.clients[id].roomId !in Listed(R, {s}))
  {
    DroppedAt(R, now, {s}, id);
  }

  lemma NowhereIsNothing(R: Redis, now: int, s: Id)
    requires Agrees(R, now) && s !in R.servers && LeadsNowhere(R, now, s)
    ensures Abs(DropServers(R, {s}), now) == Abs(R, now)
  {
    var a := Abs(DropServers(R, {s}), now);
    forall id ensures (id in a.rooms <==> LiveRoom(R, now, id)) && (id in a.clients <==> LiveClient(R, now, id)) {
      DroppedOneAt(R, now, s, id);
    }
    assert a.rooms == Abs(R, now).rooms && a.clients == Abs(R, now).clients && a.servers == R.servers;
  }

  lemma SomewhereIsSomething(R: Redis, now: int, s: Id)
    requires Agrees(R, now) && !LeadsNowhere(R, now, s)
    ensures Abs(DropServers(R, {s}), now) != Abs(R, now)
  {
    if forall id <- R.rooms :: LiveRoom(R, now, id) ==> R.rooms[id].serverId != s {
      var c :| c in R.clients && LiveClient(R, now, c) && R.clients[c].roomId in Listed(R, {s});
      DroppedOneAt(R, now, s, c);
      assert c in Abs(R, now).clients;
    } else {
      var id :| id in R.rooms && LiveRoom(R, now, id) && R.rooms[id].serverId == s;
      DroppedOneAt(R, now, s, id);
      assert id in Abs(R, now).rooms;
    }
  }

  lemma DeleteOne(st: Store, s: Id)
    ensures DeleteServers(st, {s}) == DeleteServer(st, s)
  {
    DeleteOneMoreServer(st, {}, s);
    DeleteNoServers(st);
    assert {} + {s} == {s};
  }

  /** The reap script on a missing record deletes what the index leads to, where
      the plain maps refuse. */
  lemma ReapIsReapIff(R: Redis, now: int, s: Id, cutoff: int)
    requires Agrees(R, now)
    ensures Abs(Reap(R, s, cutoff), now) == ReapServer(Abs(R, now), s, cutoff) <==>
      if s !in R.servers then LeadsNowhere(R, now, s)
      else !Stale(R.servers[s], cutoff) || NoStrays(R, now, {s})
  {
    if s !in R.servers {
      if LeadsNowhere(R, now, s) { NowhereIsNothing(R, now, s); } else { SomewhereIsSomething(R, now, s); }
    } else if Stale(R.servers[s], cutoff) {
      DropIsDeleteIff(R, now, {s});
      DeleteOne(Abs(R, now), s);
    }
  }

  /** Between the two times a live client expires exactly if its room does. */
  predicate KeepsPace(R: Redis, now: int, later: int) {
    forall c <- R.clients :: LiveClient(R, now, c) ==> (LiveClient(R, later, c) <==> !RoomExpires(R, now, later, c))
  }

  predicate RoomExpires(R: Redis, now: int, later: int, c: Id)
    requires c in R.clients
  {
    LiveRoom(R, now, R.clients[c].roomId) && !LiveRoom(R, later, R.clients[c].roomId)
  }

  predicate OutOfPace(R: Redis, now: int, later: int, c: Id) {
    LiveClient(R, now, c) && (LiveClient(R, later, c) <==> RoomExpires(R, now, later, c))
  }

  /** Time does to the live hashes what the next sweep does to plain maps, where a
      reservation outlives its ttl and no client its room, exactly when every live
      client expires with its room and none without it. */
  lemma TimeSweepsIff(R: Redis, now: int, later: int)
    requires Agrees(R, now) && now <= later
    ensures Abs(R, later) == Sweep(Abs(R, now), later) <==> KeepsPace(R, now, later)
    ensures Abs(R, later).rooms == Sweep(Abs(R, now), later).rooms
  {
    var a, b := Abs(R, later), Sweep(Abs(R, now), later);
    forall id ensures id in a.rooms <==> id in b.rooms { assert RoomOk(R, now, id); }
    assert a.rooms == b.rooms;
    forall c ensures (c in a.clients <==> c in b.clients) <==> !OutOfPace(R, now, later, c) {
      assert ClientOk(R, now, c);
      if LiveClient(R, now, c) { assert RoomOk(R, now, R.clients[c].roomId); }
    }
    if KeepsPace(R, now, later) {
      forall c ensures c in a.clients <==> c in b.clients { assert !OutOfPace(R, now, later, c); }
      assert a.clients == b.clients;
    } else {
      var c :| c in R.clients && OutOfPace(R, now, later, c);
      assert a.clients.Keys != b.clients.Keys;
    }
  }
}
