/** The Redis store (src/driver/redis.ts): hashes with a time to live, and the
    sets that index them. Seen at one instant it is a set of plain maps. */
module RedisSpec {
  import opened Prelude
  import opened Store
  import opened DriverOps

  /** Room and client hashes carry their own expiry; index entries outlive the
      hashes they point at. */
  datatype Redis = Redis(
    rooms: map<Id, Room>,
    roomIds: set<Id>,
    roomsByServer: map<Id, set<Id>>,
    clients: map<Id, Client>,
    clientsByRoom: map<Id, set<Id>>,
    servers: map<Id, Server>,
    serverIds: set<Id>)

  const NoKeys := Redis(map[], {}, map[], map[], map[], map[], {})

  /** Redis drops a key once the clock is past its expiry. */
  predicate Lives(expiresAt: Option<int>, now: int) { expiresAt.None? || now <= expiresAt.value }

  predicate LiveRoom(R: Redis, now: int, id: Id) { id in R.rooms && Lives(R.rooms[id].expiresAt, now) }

  predicate LiveClient(R: Redis, now: int, c: Id) { c in R.clients && Lives(R.clients[c].expiresAt, now) }

  function Members(index: map<Id, set<Id>>, key: Id): set<Id> { if key in index then index[key] else {} }

  function Added(index: map<Id, set<Id>>, key: Id, x: Id): map<Id, set<Id>> {
    index[key := Members(index, key) + {x}]
  }

  function Without(index: map<Id, set<Id>>, key: Id, gone: set<Id>): map<Id, set<Id>> {
    if key in index then index[key := index[key] - gone] else index
  }

  /** What the keys say at time `now`, as plain maps. */
  function Abs(R: Redis, now: int): Store {
    Store(map id | id in R.rooms && LiveRoom(R, now, id) :: R.rooms[id],
          map c | c in R.clients && LiveClient(R, now, c) :: R.clients[c],
          R.servers)
  }

  // --- the indexes agree with the hashes that are still there ---

  /** A live room is indexed, under its own server; it expires while requested only. */
  predicate RoomOk(R: Redis, now: int, id: Id) {
    LiveRoom(R, now, id) ==>
      && id in R.roomIds && id in Members(R.roomsByServer, R.rooms[id].serverId)
      && (R.rooms[id].status == Requested <==> R.rooms[id].expiresAt.Some?)
  }

  predicate ServerIndexOk(R: Redis, now: int, s: Id) {
    forall id <- Members(R.roomsByServer, s) :: LiveRoom(R, now, id) ==> R.rooms[id].serverId == s
  }

  predicate ClientOk(R: Redis, now: int, c: Id) {
    LiveClient(R, now, c) ==>
      && c in Members(R.clientsByRoom, R.clients[c].roomId)
      && (R.clients[c].status == Reserved <==> R.clients[c].expiresAt.Some?)
  }

  predicate ClientIndexOk(R: Redis, now: int, roomId: Id) {
    forall c <- Members(R.clientsByRoom, roomId) :: LiveClient(R, now, c) ==> R.clients[c].roomId == roomId
  }

  ghost predicate Agrees(R: Redis, now: int) {
    && (forall id {:trigger RoomOk(R, now, id)} :: RoomOk(R, now, id))
    && (forall s {:trigger ServerIndexOk(R, now, s)} :: ServerIndexOk(R, now, s))
    && (forall c {:trigger ClientOk(R, now, c)} :: ClientOk(R, now, c))
    && (forall r {:trigger ClientIndexOk(R, now, r)} :: ClientIndexOk(R, now, r))
    && R.servers.Keys <= R.serverIds
  }

  /** The indexes go on agreeing as hashes expire. */
  lemma TimeKeepsAgreement(R: Redis, now: int, later: int)
    requires Agrees(R, now) && now <= later
    ensures Agrees(R, later)
  {
    forall id ensures RoomOk(R, later, id) { assert RoomOk(R, now, id); }
    forall s ensures ServerIndexOk(R, later, s) { assert ServerIndexOk(R, now, s); }
    forall c ensures ClientOk(R, later, c) { assert ClientOk(R, now, c); }
    forall r ensures ClientIndexOk(R, later, r) { assert ClientIndexOk(R, now, r); }
  }

  // --- what the commands do to the keys ---

  /** HSET leaves the fields it does not name: a hash that is still live keeps its
      endpoint and secret. */
  function Merged(R: Redis, now: int, id: Id, room: Room): Room {
    if LiveRoom(R, now, id) then room.(endpoint := R.rooms[id].endpoint, secret := R.rooms[id].secret) else room
  }

  /** REGISTER_ROOM_SCRIPT. */
  function Register(R: Redis, now: int, id: Id, room: Room): Redis {
    if room.serverId !in R.servers then R
    else R.(rooms := R.rooms[id := Merged(R, now, id, room)], roomIds := R.roomIds + {id},
            roomsByServer := Added(R.roomsByServer, room.serverId, id))
  }

  function UnregisterRoom(R: Redis, now: int, id: Id): Redis {
    R.(roomsByServer :=
         if LiveRoom(R, now, id) then Without(R.roomsByServer, R.rooms[id].serverId, {id}) else R.roomsByServer,
       clients := R.clients - Members(R.clientsByRoom, id),
       clientsByRoom := R.clientsByRoom - {id},
       rooms := R.rooms - {id},
       roomIds := R.roomIds - {id})
  }

  /** ROOM_READY_SCRIPT. */
  function Ready(R: Redis, now: int, id: Id, endpoint: string, secret: string): Redis {
    if LiveRoom(R, now, id) then R.(rooms := R.rooms[id := MadeReady(R.rooms[id], endpoint, secret)]) else R
  }

  function PutClient(R: Redis, c: Id, client: Client): Redis {
    R.(clients := R.clients[c := client], clientsByRoom := Added(R.clientsByRoom, client.roomId, c))
  }

  /** PEXPIRE with a ttl that is not positive deletes the key. */
  function Reserve(R: Redis, now: int, c: Id, roomId: Id, ttlMs: int, tags: Tags): Redis {
    if CannotReserve(Abs(R, now), roomId).Some? then R
    else if ttlMs > 0 then PutClient(R, c, Client(roomId, Reserved, Some(now + ttlMs), tags, 0))
    else R.(clients := R.clients - {c}, clientsByRoom := Added(R.clientsByRoom, roomId, c))
  }

  function Connect(R: Redis, now: int, c: Id, roomId: Id, tags: Tags): Redis {
    PutClient(R, c, Client(roomId, Connected, None, tags, now))
  }

  function Disconnect(R: Redis, now: int, c: Id): Redis {
    R.(clientsByRoom :=
         if LiveClient(R, now, c) then Without(R.clientsByRoom, R.clients[c].roomId, {c}) else R.clientsByRoom,
       clients := R.clients - {c})
  }

  /** The rooms that the indexes of `gone` list, live or not. */
  function Listed(R: Redis, gone: set<Id>): set<Id> {
    set s, r | s in gone && r in Members(R.roomsByServer, s) :: r
  }

  function ClientsIn(R: Redis, rooms: set<Id>): set<Id> {
    set r, c | r in rooms && c in Members(R.clientsByRoom, r) :: c
  }

  /** Servers with everything their indexes list: REAP_SERVER_SCRIPT's deletions,
      and unregisterServer's. */
  function DropServers(R: Redis, gone: set<Id>): Redis {
    var rooms := Listed(R, gone);
    R.(clients := R.clients - ClientsIn(R, rooms), clientsByRoom := R.clientsByRoom - rooms,
       rooms := R.rooms - rooms, roomIds := R.roomIds - rooms,
       roomsByServer := R.roomsByServer - gone, servers := R.servers - gone, serverIds := R.serverIds - gone)
  }

  function Reap(R: Redis, s: Id, cutoff: int): Redis {
    if s in R.servers && !Stale(R.servers[s], cutoff) then R else DropServers(R, {s})
  }

  function WriteServer(R: Redis, id: Id, s: Server): Redis {
    R.(servers := R.servers[id := if id in R.servers then s.(tags := R.servers[id].tags) else s],
       serverIds := R.serverIds + {id})
  }

  /** The other servers on an endpoint, found through the server set. */
  function OthersOn(R: Redis, id: Id, endpoint: string): set<Id> {
    set e | e in R.serverIds && e != id && e in R.servers && R.servers[e].endpoint == endpoint
  }

  /** The write, then the eviction if the server is new. */
  function Beat(R: Redis, id: Id, s: Server): Redis {
    if id in R.servers then WriteServer(R, id, s)
    else DropServers(WriteServer(R, id, s), OthersOn(WriteServer(R, id, s), id, s.endpoint))
  }

  // --- each command keeps the agreement ---

  /** No other server's index lists the room. */
  predicate OwnRoom(R: Redis, id: Id, serverId: Id) {
    forall s <- R.roomsByServer :: id in Members(R.roomsByServer, s) ==> s == serverId
  }

  /** No other room's index lists the client. */
  predicate OwnClient(R: Redis, c: Id, roomId: Id) {
    forall r <- R.clientsByRoom :: c in Members(R.clientsByRoom, r) ==> r == roomId
  }

  /** Registering keeps the agreement exactly when the id is not listed under
      another server. */
  lemma RegisterAgreesIff(R: Redis, now: int, id: Id, room: Room)
    requires Agrees(R, now) && room.serverId in R.servers
    requires room.status == Requested && room.expiresAt.Some? && Lives(room.expiresAt, now)
    ensures Agrees(Register(R, now, id, room), now) <==> OwnRoom(R, id, room.serverId)
  {
    var R' := Register(R, now, id, room);
    if OwnRoom(R, id, room.serverId) {
      forall i ensures RoomOk(R', now, i) { assert RoomOk(R, now, i); }
      forall s ensures ServerIndexOk(R', now, s) { assert ServerIndexOk(R, now, s); }
      forall c ensures ClientOk(R', now, c) { assert ClientOk(R, now, c); }
      forall r ensures ClientIndexOk(R', now, r) { assert ClientIndexOk(R, now, r); }
    } else {
      var s :| s in R.roomsByServer && id in Members(R.roomsByServer, s) && s != room.serverId;
      assert LiveRoom(R', now, id) && R'.rooms[id].serverId == room.serverId;
      assert !ServerIndexOk(R', now, s);
    }
  }

  lemma UnregisterAgrees(R: Redis, now: int, id: Id)
    requires Agrees(R, now)
    ensures Agrees(UnregisterRoom(R, now, id), now)
  {
    var R' := UnregisterRoom(R, now, id);
    forall i ensures RoomOk(R', now, i) { assert RoomOk(R, now, i); }
    forall s ensures ServerIndexOk(R', now, s) { assert ServerIndexOk(R, now, s); }
    forall c ensures ClientOk(R', now, c) { assert ClientOk(R, now, c) && ClientIndexOk(R, now, id); }
    forall r ensures ClientIndexOk(R', now, r) { assert ClientIndexOk(R, now, r); }
  }

  lemma ReadyAgrees(R: Redis, now: int, id: Id, endpoint: string, secret: string)
    requires Agrees(R, now)
    ensures Agrees(Ready(R, now, id, endpoint, secret), now)
  {
    var R' := Ready(R, now, id, endpoint, secret);
    forall i ensures RoomOk(R', now, i) { assert RoomOk(R, now, i); }
    forall s ensures ServerIndexOk(R', now, s) { assert ServerIndexOk(R, now, s); }
    forall c ensures ClientOk(R', now, c) { assert ClientOk(R, now, c); }
    forall r ensures ClientIndexOk(R', now, r) { assert ClientIndexOk(R, now, r); }
  }

  /** Writing a client keeps the agreement exactly when the id is not listed under
      another room. Nothing is asked of the room. */
  lemma PutClientAgreesIff(R: Redis, now: int, c: Id, client: Client)
    requires Agrees(R, now) && Lives(client.expiresAt, now)
    requires client.status == Reserved <==> client.expiresAt.Some?
    ensures Agrees(PutClient(R, c, client), now) <==> OwnClient(R, c, client.roomId)
  {
    var R' := PutClient(R, c, client);
    if OwnClient(R, c, client.roomId) {
      forall i ensures RoomOk(R', now, i) { assert RoomOk(R, now, i); }
      forall s ensures ServerIndexOk(R', now, s) { assert ServerIndexOk(R, now, s); }
      forall x ensures ClientOk(R', now, x) { assert ClientOk(R, now, x); }
      forall r ensures ClientIndexOk(R', now, r) { assert ClientIndexOk(R, now, r); }
    } else {
      var r :| r in R.clientsByRoom && c in Members(R.clientsByRoom, r) && r != client.roomId;
      assert LiveClient(R', now, c) && R'.clients[c].roomId == client.roomId;
      assert !ClientIndexOk(R', now, r);
    }
  }

  /** A reservation that expires at once leaves a stale index entry. */
  lemma StaleEntryAgrees(R: Redis, now: int, c: Id, roomId: Id)
    requires Agrees(R, now)
    ensures Agrees(R.(clients := R.clients - {c}, clientsByRoom := Added(R.clientsByRoom, roomId, c)), now)
  {
    var R' := R.(clients := R.clients - {c}, clientsByRoom := Added(R.clientsByRoom, roomId, c));
    forall i ensures RoomOk(R', now, i) { assert RoomOk(R, now, i); }
    forall s ensures ServerIndexOk(R', now, s) { assert ServerIndexOk(R, now, s); }
    forall x ensures ClientOk(R', now, x) { assert ClientOk(R, now, x); }
    forall r ensures ClientIndexOk(R', now, r) { assert ClientIndexOk(R, now, r); }
  }

  lemma ReserveAgrees(R: Redis, now: int, c: Id, roomId: Id, ttlMs: int, tags: Tags)
    requires Agrees(R, now) && OwnClient(R, c, roomId)
    ensures Agrees(Reserve(R, now, c, roomId, ttlMs, tags), now)
  {
    if ttlMs > 0 {
      PutClientAgreesIff(R, now, c, Client(roomId, Reserved, Some(now + ttlMs), tags, 0));
    } else {
      StaleEntryAgrees(R, now, c, roomId);
    }
  }

  lemma DisconnectAgrees(R: Redis, now: int, c: Id)
    requires Agrees(R, now)
    ensures Agrees(Disconnect(R, now, c), now)
  {
    var R' := Disconnect(R, now, c);
    forall i ensures RoomOk(R', now, i) { assert RoomOk(R, now, i); }
    forall s ensures ServerIndexOk(R', now, s) { assert ServerIndexOk(R, now, s); }
    forall x ensures ClientOk(R', now, x) { assert ClientOk(R, now, x); }
    forall r ensures ClientIndexOk(R', now, r) { assert ClientIndexOk(R, now, r); }
  }

  /** Which live clients go with servers: those of the rooms their indexes list. */
  lemma DroppedClient(R: Redis, now: int, gone: set<Id>, c: Id)
    requires Agrees(R, now) && LiveClient(R, now, c)
    ensures c in ClientsIn(R, Listed(R, gone)) <==> R.clients[c].roomId in Listed(R, gone)
  {
    assert ClientOk(R, now, c);
    if c in ClientsIn(R, Listed(R, gone)) {
      var r :| r in Listed(R, gone) && c in Members(R.clientsByRoom, r);
      assert ClientIndexOk(R, now, r);
    }
  }

  /** Which live rooms go with servers: their own. */
  lemma DroppedRoom(R: Redis, now: int, gone: set<Id>, id: Id)
    requires Agrees(R, now) && LiveRoom(R, now, id)
    ensures id in Listed(R, gone) <==> R.rooms[id].serverId in gone
  {
    assert RoomOk(R, now, id);
    if id in Listed(R, gone) {
      var s :| s in gone && id in Members(R.roomsByServer, s);
      assert ServerIndexOk(R, now, s);
    }
  }

  lemma DropServersAgrees(R: Redis, now: int, gone: set<Id>)
    requires Agrees(R, now)
    ensures Agrees(DropServers(R, gone), now)
  {
    var R' := DropServers(R, gone);
    forall i ensures RoomOk(R', now, i) {
      assert RoomOk(R, now, i);
      if LiveRoom(R, now, i) { DroppedRoom(R, now, gone, i); }
    }
    forall t ensures ServerIndexOk(R', now, t) { assert ServerIndexOk(R, now, t); }
    forall c ensures ClientOk(R', now, c) {
      assert ClientOk(R, now, c);
      if LiveClient(R, now, c) { DroppedClient(R, now, gone, c); }
    }
    forall r ensures ClientIndexOk(R', now, r) { assert ClientIndexOk(R, now, r); }
  }

  lemma WriteServerAgrees(R: Redis, now: int, id: Id, s: Server)
    requires Agrees(R, now)
    ensures Agrees(WriteServer(R, id, s), now)
  {
    var R' := WriteServer(R, id, s);
    forall i ensures RoomOk(R', now, i) { assert RoomOk(R, now, i); }
    forall t ensures ServerIndexOk(R', now, t) { assert ServerIndexOk(R, now, t); }
    forall c ensures ClientOk(R', now, c) { assert ClientOk(R, now, c); }
    forall r ensures ClientIndexOk(R', now, r) { assert ClientIndexOk(R, now, r); }
  }

  lemma BeatAgrees(R: Redis, now: int, id: Id, s: Server)
    requires Agrees(R, now)
    ensures Agrees(Beat(R, id, s), now)
  {
    WriteServerAgrees(R, now, id, s);
    if id !in R.servers {
      DropServersAgrees(WriteServer(R, id, s), now, OthersOn(WriteServer(R, id, s), id, s.endpoint));
    }
  }

  // --- reads through the indexes ---

  function StaleRooms(R: Redis, now: int, ids: set<Id>): set<Id> { set id | id in ids && !LiveRoom(R, now, id) }

  function StaleClients(R: Redis, now: int, ids: set<Id>): set<Id> { set c | c in ids && !LiveClient(R, now, c) }

  function PruneRoomIds(R: Redis, now: int): Redis {
    R.(roomIds := R.roomIds - StaleRooms(R, now, R.roomIds))
  }

  function PruneServerIndex(R: Redis, now: int, s: Id): Redis {
    R.(roomsByServer := Without(R.roomsByServer, s, StaleRooms(R, now, Members(R.roomsByServer, s))))
  }

  function PruneClients(R: Redis, now: int, rooms: set<Id>): Redis {
    R.(clientsByRoom := map r | r in R.clientsByRoom ::
         if r in rooms then R.clientsByRoom[r] - StaleClients(R, now, R.clientsByRoom[r]) else R.clientsByRoom[r])
  }

  // --- operations, whole ---

  function LiveRooms(R: Redis, now: int, ids: set<Id>): set<Id> { ids - StaleRooms(R, now, ids) }

  function OnKeys(R: Redis, now: int, op: Op): Redis {
    match op
    case OpPass(_) => R
    case OpPrune(_) => R
    case OpRegister(id, roomType, serverId, data, tags, ttlMs) =>
      if ttlMs <= 0 then R else Register(R, now, id, NewRoom(roomType, serverId, data, tags, now, ttlMs))
    case OpUnregister(id) => UnregisterRoom(R, now, id)
    case OpReady(id, endpoint, secret) => Ready(R, now, id, endpoint, secret)
    case OpReserve(c, roomId, ttlMs, tags) => Reserve(R, now, c, roomId, ttlMs, tags)
    case OpConnect(c, roomId, tags) => Connect(R, now, c, roomId, tags)
    case OpDisconnect(c) => Disconnect(R, now, c)
    case OpBeat(s, endpoint, tags, roomTypes) =>
      PruneServerIndex(Beat(R, s, Server(endpoint, tags, roomTypes, now)), now, s)
    case OpUnregisterServer(s) => DropServers(R, {s})
    case OpReap(s, staleServerMs) => Reap(R, s, now - staleServerMs)
    case OpReadRooms(_) => PruneClients(PruneRoomIds(R, now), now, LiveRooms(R, now, R.roomIds))
    case OpReadRoom(id) => if LiveRoom(R, now, id) then PruneClients(R, now, {id}) else R
    case OpReadServer(s) =>
      if s !in R.servers then R
      else PruneClients(PruneServerIndex(R, now, s), now, LiveRooms(R, now, Members(R.roomsByServer, s)))
  }

  /** What the operations return, in terms of what the live hashes say. */
  function KeysAnswer(R: Redis, now: int, op: Op): Answer {
    var st := Abs(R, now);
    match op
    case OpRegister(_, roomType, serverId, data, _, ttlMs) =>
      Registration(Registering(serverId in R.servers, true, roomType, data, ttlMs))
    case OpReady(id, _, _) => Applied(id in st.rooms)
    case OpReserve(_, roomId, _, _) => Reservation(CannotReserve(st, roomId))
    case OpBeat(s, endpoint, tags, roomTypes) =>
      Beaten(if s in R.servers then R.servers[s].tags else tags,
             Desired(Heartbeat(st, s, Server(endpoint, tags, roomTypes, now)), s), s !in R.servers)
    case OpReap(s, staleServerMs) => Applied(s in R.servers ==> Stale(R.servers[s], now - staleServerMs))
    case OpReadRooms(f) => Rooms(Infos(st, Matching(st, f)))
    case OpReadRoom(id) => OneRoom(InfoOf(st, id))
    case OpReadServer(s) => OneServer(ServerInfo(st, s))
    case _ => Done
  }

  /** Dropping the expired entries of an index drops no live one: the plain maps
      and the agreement stay. */
  lemma PruningIsInvisible(R: Redis, now: int, key: Id)
    requires Agrees(R, now)
    ensures Agrees(PruneRoomIds(R, now), now) && Abs(PruneRoomIds(R, now), now) == Abs(R, now)
    ensures Agrees(PruneServerIndex(R, now, key), now) && Abs(PruneServerIndex(R, now, key), now) == Abs(R, now)
    ensures Agrees(PruneClients(R, now, {key}), now) && Abs(PruneClients(R, now, {key}), now) == Abs(R, now)
  {
    PrunedRoomIds(R, now);
    PrunedServerIndex(R, now, key);
    PrunedClients(R, now, {key});
  }

  lemma PrunedRoomIds(R: Redis, now: int)
    requires Agrees(R, now)
    ensures Agrees(PruneRoomIds(R, now), now)
  {
    var R' := PruneRoomIds(R, now);
    forall i ensures RoomOk(R', now, i) { assert RoomOk(R, now, i); }
    forall s ensures ServerIndexOk(R', now, s) { assert ServerIndexOk(R, now, s); }
    forall c ensures ClientOk(R', now, c) { assert ClientOk(R, now, c); }
    forall r ensures ClientIndexOk(R', now, r) { assert ClientIndexOk(R, now, r); }
  }

  lemma PrunedServerIndex(R: Redis, now: int, key: Id)
    requires Agrees(R, now)
    ensures Agrees(PruneServerIndex(R, now, key), now)
  {
    var R' := PruneServerIndex(R, now, key);
    forall i ensures RoomOk(R', now, i) { assert RoomOk(R, now, i); }
    forall s ensures ServerIndexOk(R', now, s) { assert ServerIndexOk(R, now, s); }
    forall c ensures ClientOk(R', now, c) { assert ClientOk(R, now, c); }
    forall r ensures ClientIndexOk(R', now, r) { assert ClientIndexOk(R, now, r); }
  }

  lemma PrunedClients(R: Redis, now: int, rooms: set<Id>)
    requires Agrees(R, now)
    ensures Agrees(PruneClients(R, now, rooms), now) && Abs(PruneClients(R, now, rooms), now) == Abs(R, now)
  {
    var R' := PruneClients(R, now, rooms);
    forall i ensures RoomOk(R', now, i) { assert RoomOk(R, now, i); }
    forall s ensures ServerIndexOk(R', now, s) { assert ServerIndexOk(R, now, s); }
    forall c ensures ClientOk(R', now, c) { assert ClientOk(R, now, c); }
    forall r ensures ClientIndexOk(R', now, r) { assert ClientIndexOk(R, now, r); }
  }

  /** The room set, read through and filtered, is all live rooms. */
  lemma RoomIdsAreRooms(R: Redis, now: int)
    requires Agrees(R, now)
    ensures (map id | id in R.roomIds && LiveRoom(R, now, id) :: R.rooms[id]) == Abs(R, now).rooms
  {
    forall id ensures LiveRoom(R, now, id) ==> id in R.roomIds { assert RoomOk(R, now, id); }
  }

  /** A server's index, read through and filtered, is its desired set. */
  lemma ServerIndexIsDesired(R: Redis, now: int, s: Id)
    requires Agrees(R, now)
    ensures (map id | id in Members(R.roomsByServer, s) && LiveRoom(R, now, id) ::
               DesiredRoom(R.rooms[id].roomType, R.rooms[id].data, R.rooms[id].status)) == Desired(Abs(R, now), s)
  {
    assert ServerIndexOk(R, now, s);
    forall id ensures LiveRoom(R, now, id) && R.rooms[id].serverId == s ==> id in Members(R.roomsByServer, s) {
      assert RoomOk(R, now, id);
    }
  }

  /** A room's client index, read through and filtered, is its clients. */
  lemma ClientIndexIsClients(R: Redis, now: int, r: Id)
    requires Agrees(R, now)
    ensures (map c | c in Members(R.clientsByRoom, r) && LiveClient(R, now, c) :: R.clients[c]) ==
      ClientsOf(Abs(R, now), r)
  {
    assert ClientIndexOk(R, now, r);
    forall c ensures LiveClient(R, now, c) && R.clients[c].roomId == r ==> c in Members(R.clientsByRoom, r) {
      assert ClientOk(R, now, c);
    }
  }
}
