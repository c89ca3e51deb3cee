/** The operations of a driver and the passing of time, and what they do to and
    answer from the in-memory driver's maps (src/driver/memory.ts), which lapsed
    requested rooms leave at the next sweep and lapsed reservations and stale
    servers at the next prune. */
module DriverOps {
  import opened Prelude
  import opened Store

  datatype Op =
    | OpPass(later: int)
    | OpPrune(staleServerMs: int)     // the in-memory driver's own timer
    | OpRegister(id: Id, roomType: string, serverId: Id, data: string, tags: Tags, ttlMs: int)
    | OpUnregister(id: Id)
    | OpReady(id: Id, endpoint: string, secret: string)
    | OpReserve(c: Id, roomId: Id, ttlMs: int, tags: Tags)
    | OpConnect(c: Id, roomId: Id, tags: Tags)
    | OpDisconnect(c: Id)
    | OpBeat(s: Id, endpoint: string, tags: Tags, roomTypes: seq<string>)
    | OpUnregisterServer(s: Id)
    | OpReap(s: Id, staleServerMs: int)
    | OpReadRooms(filter: RoomFilter)
    | OpReadRoom(id: Id)
    | OpReadServer(s: Id)

  datatype Answer =
    | Done
    | Registration(result: RegisterResult)
    | Applied(yes: bool)
    | Reservation(error: Option<ReserveError>)
    | Beaten(tags: Tags, desired: map<Id, DesiredRoom>, registered: bool)
    | Rooms(rooms: map<Id, RoomInfo>)
    | OneRoom(room: Option<RoomInfo>)
    | OneServer(server: Option<map<Id, RoomInfo>>)

  function OnMaps(st: Store, now: int, op: Op): Store {
    match op
    case OpPass(_) => st
    case OpPrune(staleServerMs) => Prune(st, now, staleServerMs)
    case OpRegister(id, roomType, serverId, data, tags, ttlMs) =>
      if ttlMs <= 0 then st else RegisterRoom(st, id, NewRoom(roomType, serverId, data, tags, now, ttlMs))
    case OpUnregister(id) => RemoveRooms(st, {id})
    case OpReady(id, endpoint, secret) => RoomReady(Sweep(st, now), id, endpoint, secret).0
    case OpReserve(c, roomId, ttlMs, tags) => ReserveClient(st, c, roomId, now, ttlMs, tags)
    case OpConnect(c, roomId, tags) => ConnectClient(st, c, roomId, tags, now)
    case OpDisconnect(c) => DisconnectClient(st, c)
    case OpBeat(s, endpoint, tags, roomTypes) => Sweep(Heartbeat(st, s, Server(endpoint, tags, roomTypes, now)), now)
    case OpUnregisterServer(s) => DeleteServer(st, s)
    case OpReap(s, staleServerMs) => ReapServer(st, s, now - staleServerMs)
    case OpReadRooms(_) => Sweep(st, now)
    case OpReadRoom(_) => Sweep(st, now)
    case OpReadServer(_) => st
  }

  function Registering(known: bool, ttlFirst: bool, roomType: string, data: string, ttlMs: int): RegisterResult {
    if !known && !(ttlFirst && ttlMs <= 0) then ServerNotFound
    else if ttlMs <= 0 then BadTtl
    else Registered(DesiredRoom(roomType, data, Requested))
  }

  function InfoOf(st: Store, id: Id): Option<RoomInfo> {
    if id in st.rooms then Some((st.rooms[id], ClientsOf(st, id))) else None
  }

  function ServerInfo(st: Store, s: Id): Option<map<Id, RoomInfo>> {
    if s in st.servers then Some(Infos(st, RoomsOf(st, s))) else None
  }

  function MapsAnswer(st: Store, now: int, op: Op): Answer {
    match op
    case OpRegister(_, roomType, serverId, data, _, ttlMs) =>
      Registration(Registering(serverId in st.servers, false, roomType, data, ttlMs))
    case OpReady(id, endpoint, secret) => Applied(RoomReady(Sweep(st, now), id, endpoint, secret).1)
    case OpReserve(_, roomId, _, _) => Reservation(CannotReserve(st, roomId))
    case OpBeat(s, endpoint, tags, roomTypes) =>
      var st' := OnMaps(st, now, op);
      Beaten(if s in st.servers then st.servers[s].tags else tags, Desired(st', s), s !in st.servers)
    case OpReap(s, staleServerMs) => Applied(s in st.servers && Stale(st.servers[s], now - staleServerMs))
    case OpReadRooms(f) => Rooms(Infos(Sweep(st, now), Matching(Sweep(st, now), f)))
    case OpReadRoom(id) => OneRoom(InfoOf(Sweep(st, now), id))
    case OpReadServer(s) => OneServer(ServerInfo(st, s))
    case _ => Done
  }

  // --- what every operation keeps ---

  datatype Call = Call(now: int, op: Op)

  function AfterAll(st: Store, calls: seq<Call>): Store {
    if calls == [] then st
    else OnMaps(AfterAll(st, calls[..|calls| - 1]), calls[|calls| - 1].now, calls[|calls| - 1].op)
  }

  lemma CallKeepsIntegrity(st: Store, now: int, op: Op)
    requires Integrity(st)
    ensures Integrity(OnMaps(st, now, op))
  {
  }

  /** After any operations in any order, at any times, every room's server exists. */
  lemma {:induction false} RoomsHaveServers(calls: seq<Call>)
    ensures Integrity(AfterAll(Empty, calls))
    decreases |calls|
  {
    if calls != [] {
      var n := |calls| - 1;
      RoomsHaveServers(calls[..n]);
      CallKeepsIntegrity(AfterAll(Empty, calls[..n]), calls[n].now, calls[n].op);
    }
  }
}
