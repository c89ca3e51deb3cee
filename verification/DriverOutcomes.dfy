/** What an operation of the in-memory driver does, record by record: which rooms,
    clients and servers are there afterwards, and with what in them; and what a
    read says of them (src/driver/memory.ts). */
module DriverOutcomes {
  import opened Prelude
  import opened Store
  import opened DriverOps

  // --- servers ---

  /** The operation takes the server away: it is unregistered, found silent for
      longer than the limit, or replaced by a newcomer on its endpoint. */
  predicate TakesServer(st: Store, now: int, op: Op, s: Id)
    requires s in st.servers
  {
    match op
    case OpUnregisterServer(id) => id == s
    case OpReap(id, staleServerMs) => id == s && now - st.servers[s].lastHeartbeat > staleServerMs
    case OpPrune(staleServerMs) => now - st.servers[s].lastHeartbeat > staleServerMs
    case OpBeat(id, endpoint, _, _) => id !in st.servers && st.servers[s].endpoint == endpoint
    case _ => false
  }

  /** A server is there afterwards iff it beats, or was there and is not taken away.
      A beat refreshes all but its tags, which are those it first came with. */
  lemma ServerAfter(st: Store, now: int, op: Op, s: Id)
    ensures var st' := OnMaps(st, now, op);
      var beats := op.OpBeat? && op.s == s;
      && (s in st'.servers <==> beats || (s in st.servers && !TakesServer(st, now, op, s)))
      && (beats ==>
            && st'.servers[s].endpoint == op.endpoint && st'.servers[s].roomTypes == op.roomTypes
            && st'.servers[s].lastHeartbeat == now
            && st'.servers[s].tags == if s in st.servers then st.servers[s].tags else op.tags)
      && (s in st'.servers && !beats ==> st'.servers[s] == st.servers[s])
  {
  }

  // --- rooms ---

  /** Requested, and its time is up. */
  predicate TimeIsUp(r: Room, now: int) { r.status == Requested && r.expiresAt.Some? && r.expiresAt.value < now }

  /** The operations that first let lapsed rooms go. */
  predicate Sweeps(op: Op) { op.OpReady? || op.OpBeat? || op.OpPrune? || op.OpReadRooms? || op.OpReadRoom? }

  /** The operation takes the room away: it is unregistered, goes with its server, or
      has lapsed when somebody looks. */
  predicate TakesRoom(st: Store, now: int, op: Op, id: Id)
    requires id in st.rooms && st.rooms[id].serverId in st.servers
  {
    || (op.OpUnregister? && op.id == id)
    || TakesServer(st, now, op, st.rooms[id].serverId)
    || (Sweeps(op) && TimeIsUp(st.rooms[id], now))
  }

  /** A registration that is let in. */
  predicate Registers(st: Store, op: Op) { op.OpRegister? && op.serverId in st.servers && op.ttlMs > 0 }

  /** A room is there afterwards iff it is registered, or was there and is not taken
      away. It is as registered, with nothing of an earlier record of that id,
      until it is made ready; then it runs for good with its endpoint and secret. */
  lemma RoomAfter(st: Store, now: int, op: Op, id: Id)
    requires Integrity(st)
    ensures var st' := OnMaps(st, now, op);
      var registers := Registers(st, op) && op.id == id;
      && (id in st'.rooms <==> registers || (id in st.rooms && !TakesRoom(st, now, op, id)))
      && (registers ==> st'.rooms[id] == Room(op.roomType, op.serverId, Requested, None, None, op.data, op.tags, now,
                                             Some(now + op.ttlMs)))
      && (id in st'.rooms && op.OpReady? && op.id == id ==>
            st'.rooms[id] == st.rooms[id].(status := Running, endpoint := Some(op.endpoint), secret := Some(op.secret),
                                           expiresAt := None))
      && (id in st'.rooms && !registers && !(op.OpReady? && op.id == id) ==> st'.rooms[id] == st.rooms[id])
  {
    if id in st.rooms { assert st.rooms[id].serverId in st.servers; }
    match op {
      case OpBeat(s, endpoint, tags, roomTypes) => BeatRooms(st, now, s, Server(endpoint, tags, roomTypes, now), id);
      case OpPrune(staleServerMs) => PruneRooms(st, now, staleServerMs, id);
      case _ =>
    }
  }

  lemma BeatRooms(st: Store, now: int, s: Id, server: Server, id: Id)
    requires Integrity(st)
    ensures var st' := Sweep(Heartbeat(st, s, server), now);
      && (id in st'.rooms <==>
            && id in st.rooms && !TimeIsUp(st.rooms[id], now)
            && (s in st.servers || st.servers[st.rooms[id].serverId].endpoint != server.endpoint))
      && (id in st'.rooms ==> st'.rooms[id] == st.rooms[id])
  {
    if id in st.rooms { assert st.rooms[id].serverId in st.servers; }
  }

  lemma PruneRooms(st: Store, now: int, staleServerMs: int, id: Id)
    requires Integrity(st)
    ensures var st' := Prune(st, now, staleServerMs);
      && (id in st'.rooms <==>
            && id in st.rooms && !TimeIsUp(st.rooms[id], now)
            && now - st.servers[st.rooms[id].serverId].lastHeartbeat <= staleServerMs)
      && (id in st'.rooms ==> st'.rooms[id] == st.rooms[id])
  {
    if id in st.rooms { assert st.rooms[id].serverId in st.servers; }
  }

  // --- clients ---

  /** The operation takes the client away: it disconnects, its reservation is pruned
      once its time is up, its room is unregistered, or its room is taken away. */
  ghost predicate TakesClient(st: Store, now: int, op: Op, c: Id)
    requires c in st.clients && Integrity(st)
  {
    || (op.OpDisconnect? && op.c == c)
    || (op.OpUnregister? && op.id == st.clients[c].roomId)
    || (op.OpPrune? && st.clients[c].status == Reserved && st.clients[c].expiresAt.Some?
          && st.clients[c].expiresAt.value < now)
    || (st.clients[c].roomId in st.rooms && TakesRoom(st, now, op, st.clients[c].roomId))
  }

  /** A reservation that is let in: for a room that runs, with a secret and an endpoint. */
  predicate Reserves(st: Store, op: Op) {
    && op.OpReserve? && op.roomId in st.rooms && st.rooms[op.roomId].status == Running
    && st.rooms[op.roomId].secret.Some? && st.rooms[op.roomId].secret.value != ""
    && st.rooms[op.roomId].endpoint.Some? && st.rooms[op.roomId].endpoint.value != ""
  }

  /** The client's record after the operation. */
  ghost predicate ClientIs(st: Store, now: int, op: Op, c: Id, st': Store)
    requires Integrity(st)
  {
    var reserved, connected := Reserves(st, op) && op.c == c, op.OpConnect? && op.c == c;
    && (c in st'.clients <==> reserved || connected || (c in st.clients && !TakesClient(st, now, op, c)))
    && (reserved ==> st'.clients[c] == Client(op.roomId, Reserved, Some(now + op.ttlMs), op.tags, 0))
    && (connected ==> st'.clients[c] == Client(op.roomId, Connected, None, op.tags, now))
    && (c in st'.clients && !reserved && !connected ==> st'.clients[c] == st.clients[c])
  }

  /** A client is there afterwards iff it is reserved or connected, or was there and is
      not taken away; a connect takes whatever was there over. */
  lemma ClientAfter(st: Store, now: int, op: Op, c: Id)
    requires Integrity(st)
    ensures ClientIs(st, now, op, c, OnMaps(st, now, op))
  {
    if op.OpReserve? || op.OpConnect? || op.OpDisconnect? || op.OpRegister? || op.OpPass? || op.OpReadServer? {
      ClientWritten(st, now, op, c);
    } else {
      ClientTaken(st, now, op, c);
    }
  }

  lemma ClientWritten(st: Store, now: int, op: Op, c: Id)
    requires Integrity(st)
    requires op.OpReserve? || op.OpConnect? || op.OpDisconnect? || op.OpRegister? || op.OpPass? || op.OpReadServer?
    ensures ClientIs(st, now, op, c, OnMaps(st, now, op))
  {
  }

  lemma ClientTaken(st: Store, now: int, op: Op, c: Id)
    requires Integrity(st)
    requires !op.OpReserve? && !op.OpConnect? && !op.OpDisconnect? && !op.OpRegister?
    ensures ClientIs(st, now, op, c, OnMaps(st, now, op))
  {
    if c in st.clients && st.clients[c].roomId in st.rooms {
      assert st.rooms[st.clients[c].roomId].serverId in st.servers;
    }
    match op {
      case OpBeat(s, endpoint, tags, roomTypes) => BeatClients(st, now, s, Server(endpoint, tags, roomTypes, now), c);
      case OpPrune(staleServerMs) => PruneClients(st, now, staleServerMs, c);
      case _ =>
    }
  }

  lemma BeatClients(st: Store, now: int, s: Id, server: Server, c: Id)
    requires Integrity(st)
    ensures var st' := Sweep(Heartbeat(st, s, server), now);
      && (c in st'.clients <==>
            && c in st.clients && (st.clients[c].roomId in st.rooms ==> st.clients[c].roomId in st'.rooms))
      && (c in st'.clients ==> st'.clients[c] == st.clients[c])
  {
    if c in st.clients { BeatRooms(st, now, s, server, st.clients[c].roomId); }
  }

  lemma PruneClients(st: Store, now: int, staleServerMs: int, c: Id)
    requires Integrity(st)
    ensures var st' := Prune(st, now, staleServerMs);
      && (c in st'.clients <==>
            && c in st.clients && (st.clients[c].roomId in st.rooms ==> st.clients[c].roomId in st'.rooms)
            && !(st.clients[c].status == Reserved && st.clients[c].expiresAt.Some?
                   && st.clients[c].expiresAt.value < now))
      && (c in st'.clients ==> st'.clients[c] == st.clients[c])
  {
    if c in st.clients { PruneRooms(st, now, staleServerMs, st.clients[c].roomId); }
  }

  // --- what is read ---

  /** What a filter asks of a room; an empty string asks for nothing. */
  ghost predicate AskedFor(f: RoomFilter, r: Room) {
    && (f.roomType.Some? && f.roomType.value != "" ==> r.roomType == f.roomType.value)
    && (f.status.Some? ==> r.status == f.status.value)
    && (f.serverId.Some? && f.serverId.value != "" ==> r.serverId == f.serverId.value)
    && (forall k :: k in f.eq ==> k in r.tags && r.tags[k] == f.eq[k])
    && (forall k :: k in f.neq ==> !(k in r.tags && r.tags[k] == f.neq[k]))
  }

  /** A room as it is read: its record, and exactly the clients that belong to it. */
  ghost predicate ReadAs(st: Store, id: Id, info: RoomInfo) {
    && id in st.rooms && info.0 == st.rooms[id]
    && (forall c :: c in info.1 <==> c in st.clients && st.clients[c].roomId == id)
    && (forall c :: c in info.1 ==> info.1[c] == st.clients[c])
  }

  /** The room list has exactly the rooms that are there, have not lapsed and are
      asked for; one room is read iff it is there and has not lapsed. */
  lemma RoomsAreRead(st: Store, now: int, f: RoomFilter, id: Id)
    ensures var rooms := MapsAnswer(st, now, OpReadRooms(f)).rooms;
      && (id in rooms <==> id in st.rooms && !TimeIsUp(st.rooms[id], now) && AskedFor(f, st.rooms[id]))
      && (id in rooms ==> ReadAs(st, id, rooms[id]))
    ensures var room := MapsAnswer(st, now, OpReadRoom(id)).room;
      && (room.Some? <==> id in st.rooms && !TimeIsUp(st.rooms[id], now))
      && (room.Some? ==> ReadAs(st, id, room.value))
  {
    var st' := Sweep(st, now);
    if id in st'.rooms { assert ReadAs(st, id, (st'.rooms[id], ClientsOf(st', id))); }
  }

  /** A beat is answered with the server's tags, whether it was new, and exactly its
      rooms that have not lapsed. */
  lemma BeatIsAnswered(st: Store, now: int, op: Op, id: Id)
    requires Integrity(st) && op.OpBeat?
    ensures var a := MapsAnswer(st, now, op);
      && a.Beaten? && (a.registered <==> op.s !in st.servers)
      && a.tags == (if op.s in st.servers then st.servers[op.s].tags else op.tags)
      && (id in a.desired <==>
            id in st.rooms && st.rooms[id].serverId == op.s && !TimeIsUp(st.rooms[id], now))
      && (id in a.desired ==>
            a.desired[id] == DesiredRoom(st.rooms[id].roomType, st.rooms[id].data, st.rooms[id].status))
  {
    BeatRooms(st, now, op.s, Server(op.endpoint, op.tags, op.roomTypes, now), id);
    if id in st.rooms { assert st.rooms[id].serverId in st.servers; }
  }

  /** The other answers: what is refused and why, what a push carries, whether a
      ready room was still wanted, whether a reap took anything. */
  lemma OthersAreAnswered(st: Store, now: int, op: Op)
    ensures op.OpRegister? ==> MapsAnswer(st, now, op) == Registration(
      if op.serverId !in st.servers then ServerNotFound
      else if op.ttlMs <= 0 then BadTtl
      else Registered(DesiredRoom(op.roomType, op.data, Requested)))
    ensures op.OpReady? ==> MapsAnswer(st, now, op) == Applied(op.id in st.rooms && !TimeIsUp(st.rooms[op.id], now))
    ensures op.OpReserve? ==> MapsAnswer(st, now, op) == Reservation(
      if op.roomId !in st.rooms then Some(RoomNotFound) else if Reserves(st, op) then None else Some(RoomNotRunning))
    ensures op.OpReap? ==> MapsAnswer(st, now, op) == Applied(op.s in st.servers && TakesServer(st, now, op, op.s))
  {
  }
}
