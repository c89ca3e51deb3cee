/** The control-plane records as plain maps, and what each driver operation does
    to them (src/driver/memory.ts; src/driver/redis.ts keeps the same records
    behind indexes). Times are milliseconds on one clock. */
module Store {
  import opened Prelude

  type Id = string
  type Tags = map<string, string>

  datatype RoomStatus = Requested | Running
  datatype ClientStatus = Reserved | Connected

  /** `expiresAt` is set while a room is only requested. */
  datatype Room = Room(
    roomType: string, serverId: Id, status: RoomStatus, endpoint: Option<string>, secret: Option<string>,
    data: string, tags: Tags, createdAt: int, expiresAt: Option<int>)

  datatype Client = Client(roomId: Id, status: ClientStatus, expiresAt: Option<int>, tags: Tags, connectedAt: int)

  datatype Server = Server(endpoint: string, tags: Tags, roomTypes: seq<string>, lastHeartbeat: int)

  datatype Store = Store(rooms: map<Id, Room>, clients: map<Id, Client>, servers: map<Id, Server>)

  const Empty := Store(map[], map[], map[])

  /** What a heartbeat returns about one assigned room. */
  datatype DesiredRoom = DesiredRoom(roomType: string, data: string, status: RoomStatus)

  datatype ReserveError = RoomNotFound | RoomNotRunning

  datatype RegisterResult = Registered(pushed: DesiredRoom) | ServerNotFound | BadTtl

  /** What listRooms may ask for; empty strings ask for nothing. */
  datatype RoomFilter = RoomFilter(
    roomType: Option<string>, status: Option<RoomStatus>, serverId: Option<Id>, eq: Tags, neq: Tags)

  /** A room as it is read: its record and its clients. */
  type RoomInfo = (Room, map<Id, Client>)

  // --- removing rooms ---

  function WithoutClientsOf(clients: map<Id, Client>, gone: set<Id>): map<Id, Client> {
    map c | c in clients && clients[c].roomId !in gone :: clients[c]
  }

  function RemoveRooms(st: Store, gone: set<Id>): Store {
    st.(rooms := st.rooms - gone, clients := WithoutClientsOf(st.clients, gone))
  }

  function RoomsOf(st: Store, serverId: Id): set<Id> {
    set r | r in st.rooms && st.rooms[r].serverId == serverId
  }

  function DeleteServer(st: Store, serverId: Id): Store {
    var st1 := RemoveRooms(st, RoomsOf(st, serverId));
    st1.(servers := st1.servers - {serverId})
  }

  predicate Lapsed(r: Room, now: int) {
    r.status == Requested && r.expiresAt.Some? && r.expiresAt.value < now
  }

  function LapsedRooms(st: Store, now: int): set<Id> {
    set r | r in st.rooms && Lapsed(st.rooms[r], now)
  }

  /** Requested rooms whose ttl has run out vanish, with their clients. */
  function Sweep(st: Store, now: int): Store {
    RemoveRooms(st, LapsedRooms(st, now))
  }

  // --- rooms ---

  function NewRoom(roomType: string, serverId: Id, data: string, tags: Tags, now: int, ttlMs: int): Room {
    Room(roomType, serverId, Requested, None, None, data, tags, now, Some(now + ttlMs))
  }

  /** Refused when the server has no record. */
  function RegisterRoom(st: Store, id: Id, room: Room): Store {
    if room.serverId in st.servers then st.(rooms := st.rooms[id := room]) else st
  }

  function MadeReady(r: Room, endpoint: string, secret: string): Room {
    r.(status := Running, endpoint := Some(endpoint), secret := Some(secret), expiresAt := None)
  }

  /** False, and nothing changes, when the record is gone. */
  function RoomReady(st: Store, id: Id, endpoint: string, secret: string): (Store, bool) {
    if id in st.rooms then (st.(rooms := st.rooms[id := MadeReady(st.rooms[id], endpoint, secret)]), true)
    else (st, false)
  }

  // --- clients ---

  /** What the source tests as `!value`. */
  predicate Missing(value: Option<string>) { value.None? || value.value == "" }

  function CannotReserve(st: Store, roomId: Id): Option<ReserveError> {
    if roomId !in st.rooms then Some(RoomNotFound)
    else
      var r := st.rooms[roomId];
      if r.status != Running || Missing(r.secret) || Missing(r.endpoint) then Some(RoomNotRunning) else None
  }

  function ReserveClient(st: Store, id: Id, roomId: Id, now: int, ttlMs: int, tags: Tags): Store {
    if CannotReserve(st, roomId).Some? then st
    else st.(clients := st.clients[id := Client(roomId, Reserved, Some(now + ttlMs), tags, 0)])
  }

  function ConnectClient(st: Store, id: Id, roomId: Id, tags: Tags, now: int): Store {
    st.(clients := st.clients[id := Client(roomId, Connected, None, tags, now)])
  }

  function DisconnectClient(st: Store, id: Id): Store {
    st.(clients := st.clients - {id})
  }

  function ClientsOf(st: Store, roomId: Id): map<Id, Client> {
    map c | c in st.clients && st.clients[c].roomId == roomId :: st.clients[c]
  }

  // --- reads ---

  predicate Matches(f: RoomFilter, r: Room) {
    && (Missing(f.roomType) || f.roomType.value == r.roomType)
    && (f.status.None? || f.status.value == r.status)
    && (Missing(f.serverId) || f.serverId.value == r.serverId)
    && (forall k <- f.eq :: k in r.tags && r.tags[k] == f.eq[k])
    && (forall k <- f.neq :: k in r.tags ==> r.tags[k] != f.neq[k])
  }

  function Infos(st: Store, ids: set<Id>): map<Id, RoomInfo> {
    map id | id in ids && id in st.rooms :: (st.rooms[id], ClientsOf(st, id))
  }

  function Matching(st: Store, f: RoomFilter): set<Id> { set id | id in st.rooms && Matches(f, st.rooms[id]) }

  // --- servers ---

  function SameEndpoint(st: Store, endpoint: string): set<Id> {
    set s | s in st.servers && st.servers[s].endpoint == endpoint
  }

  /** Servers of `gone` and everything they own. */
  function DeleteServers(st: Store, gone: set<Id>): Store {
    var rooms := set r | r in st.rooms && st.rooms[r].serverId in gone;
    var st1 := RemoveRooms(st, rooms);
    st1.(servers := st1.servers - gone)
  }

  /** A known server is refreshed, its tags kept; an unknown one is inserted,
      after every other server on its endpoint has been evicted. */
  function Heartbeat(st: Store, id: Id, s: Server): Store {
    if id in st.servers then
      st.(servers := st.servers[id := s.(tags := st.servers[id].tags)])
    else
      var st1 := DeleteServers(st, SameEndpoint(st, s.endpoint));
      st1.(servers := st1.servers[id := s])
  }

  function Desired(st: Store, serverId: Id): map<Id, DesiredRoom> {
    map r | r in st.rooms && st.rooms[r].serverId == serverId ::
      DesiredRoom(st.rooms[r].roomType, st.rooms[r].data, st.rooms[r].status)
  }

  predicate Stale(s: Server, cutoff: int) {
    s.lastHeartbeat < cutoff
  }

  function ReapServer(st: Store, id: Id, cutoff: int): Store {
    if id in st.servers && Stale(st.servers[id], cutoff) then DeleteServer(st, id) else st
  }

  predicate ReservationLapsed(c: Client, now: int) {
    c.status == Reserved && c.expiresAt.Some? && c.expiresAt.value < now
  }

  function LiveClients(clients: map<Id, Client>, now: int): map<Id, Client> {
    map c | c in clients && !ReservationLapsed(clients[c], now) :: clients[c]
  }

  function StaleServers(st: Store, cutoff: int): set<Id> {
    set s | s in st.servers && Stale(st.servers[s], cutoff)
  }

  function PruneLapsed(st: Store, now: int): Store {
    var st1 := Sweep(st, now);
    st1.(clients := LiveClients(st1.clients, now))
  }

  /** The background prune: stale servers, lapsed rooms, lapsed reservations. */
  function Prune(st: Store, now: int, staleServerMs: int): Store {
    PruneLapsed(DeleteServers(st, StaleServers(st, now - staleServerMs)), now)
  }

  // --- removing one at a time is removing all at once ---

  lemma RemoveOneMore(st: Store, done: set<Id>, r: Id)
    ensures RemoveRooms(RemoveRooms(st, done), {r}) == RemoveRooms(st, done + {r})
  {
    assert st.rooms - done - {r} == st.rooms - (done + {r});
  }

  lemma DeleteOneMoreServer(st: Store, done: set<Id>, s: Id)
    ensures DeleteServer(DeleteServers(st, done), s) == DeleteServers(st, done + {s})
  {
    var d := DeleteServers(st, done);
    assert d.servers - {s} == st.servers - (done + {s});
    assert DeleteServer(d, s).rooms == DeleteServers(st, done + {s}).rooms;
    assert DeleteServer(d, s).clients == DeleteServers(st, done + {s}).clients;
  }

  lemma DeleteNoServers(st: Store)
    ensures DeleteServers(st, {}) == st
  {
    assert DeleteServers(st, {}).rooms == st.rooms;
    assert DeleteServers(st, {}).clients == st.clients;
    assert DeleteServers(st, {}).servers == st.servers;
  }

  // --- what every operation keeps ---

  /** Every room's server exists. */
  ghost predicate Integrity(st: Store) {
    forall r :: r in st.rooms ==> st.rooms[r].serverId in st.servers
  }

  /** A server without a record has no rooms: after it is reaped, its next
      heartbeat inserts it again with an empty desired set. */
  lemma UnknownServerStartsEmpty(st: Store, id: Id, server: Server)
    requires Integrity(st) && id !in st.servers
    ensures Desired(Heartbeat(st, id, server), id) == map[]
  {
    var st' := Heartbeat(st, id, server);
    forall r | r in st'.rooms ensures st'.rooms[r].serverId != id { assert r in st.rooms; }
  }
}
