/** Runs of the Redis driver beside the in-memory driver: operations and passing
    time in any order, from empty stores, with ids that are never reused. */
module RedisRuns {
  import opened Prelude
  import opened Store
  import opened DriverOps
  import opened RedisSpec
  import opened RedisExact

  /** `st` is what the in-memory driver's maps hold. `homes` and `owners` record
      under which server a room id was registered and to which room a client id
      belonged. */
  datatype World = World(R: Redis, st: Store, now: int, homes: map<Id, Id>, owners: map<Id, Id>)

  /** Ids are never reused: a room id goes to one server, a client id to one room. */
  predicate Allowed(w: World, op: Op) {
    match op
    case OpPass(later) => w.now <= later
    case OpRegister(id, _, serverId, _, _, _) => id in w.homes ==> w.homes[id] == serverId
    case OpReserve(c, roomId, _, _) => c in w.owners ==> w.owners[c] == roomId
    case OpConnect(c, roomId, _) => c in w.owners ==> w.owners[c] == roomId
    case _ => true
  }

  function Then(now: int, op: Op): int { if op.OpPass? then op.later else now }

  function Step(w: World, op: Op): World {
    World(OnKeys(w.R, w.now, op), OnMaps(w.st, w.now, op), Then(w.now, op),
          if op.OpRegister? then w.homes[op.id := op.serverId] else w.homes,
          if op.OpReserve? || op.OpConnect? then w.owners[op.c := op.roomId] else w.owners)
  }

  function Start(now: int): World { World(NoKeys, Empty, now, map[], map[]) }

  ghost predicate StepAt(ws: seq<World>, ops: seq<Op>, i: nat)
    requires |ws| == |ops| + 1 && i < |ops|
  {
    Allowed(ws[i], ops[i]) && ws[i + 1] == Step(ws[i], ops[i])
  }

  ghost predicate IsRun(ws: seq<World>, ops: seq<Op>) {
    && |ws| == |ops| + 1 && ws[0] == Start(ws[0].now)
    && forall i: nat {:trigger StepAt(ws, ops, i)} :: i < |ops| ==> StepAt(ws, ops, i)
  }

  // --- the indexes always agree ---

  predicate HomesOk(w: World) {
    forall s <- w.R.roomsByServer :: forall id <- w.R.roomsByServer[s] :: id in w.homes && w.homes[id] == s
  }

  predicate OwnersOk(w: World) {
    forall r <- w.R.clientsByRoom :: forall c <- w.R.clientsByRoom[r] :: c in w.owners && w.owners[c] == r
  }

  ghost predicate Inv(w: World) { Agrees(w.R, w.now) && HomesOk(w) && OwnersOk(w) }

  /** What the records of use give: the preconditions of the agreement lemmas. */
  lemma NeverReused(w: World, op: Op)
    requires Inv(w) && Allowed(w, op)
    ensures op.OpRegister? ==> OwnRoom(w.R, op.id, op.serverId)
    ensures op.OpReserve? || op.OpConnect? ==> OwnClient(w.R, op.c, op.roomId)
  {
  }

  lemma StepAgrees(w: World, op: Op)
    requires Inv(w) && Allowed(w, op)
    ensures Agrees(Step(w, op).R, Step(w, op).now)
  {
    var R, now := w.R, w.now;
    NeverReused(w, op);
    match op {
      case OpPass(later) => TimeKeepsAgreement(R, now, later);
      case OpPrune(_) =>
      case OpRegister(id, roomType, serverId, data, tags, ttlMs) =>
        if ttlMs > 0 && serverId in R.servers {
          RegisterAgreesIff(R, now, id, NewRoom(roomType, serverId, data, tags, now, ttlMs));
        }
      case OpUnregister(id) => UnregisterAgrees(R, now, id);
      case OpReady(id, endpoint, secret) => ReadyAgrees(R, now, id, endpoint, secret);
      case OpReserve(c, roomId, ttlMs, tags) => ReserveAgrees(R, now, c, roomId, ttlMs, tags);
      case OpConnect(c, roomId, tags) => PutClientAgreesIff(R, now, c, Client(roomId, Connected, None, tags, now));
      case OpDisconnect(c) => DisconnectAgrees(R, now, c);
      case OpBeat(s, endpoint, tags, roomTypes) =>
        var server := Server(endpoint, tags, roomTypes, now);
        BeatAgrees(R, now, s, server);
        PrunedServerIndex(Beat(R, s, server), now, s);
      case OpUnregisterServer(s) => DropServersAgrees(R, now, {s});
      case OpReap(s, _) => DropServersAgrees(R, now, {s});
      case _ => ReadsAreInvisible(R, now, op);
    }
  }

  predicate IsRead(op: Op) { op.OpReadRooms? || op.OpReadRoom? || op.OpReadServer? }

  lemma ReadsAreInvisible(R: Redis, now: int, op: Op)
    requires Agrees(R, now) && IsRead(op)
    ensures Agrees(OnKeys(R, now, op), now) && Abs(OnKeys(R, now, op), now) == Abs(R, now)
  {
    match op
    case OpReadRooms(_) =>
      PruningIsInvisible(R, now, "");
      PrunedClients(PruneRoomIds(R, now), now, LiveRooms(R, now, R.roomIds));
    case OpReadRoom(id) => PrunedClients(R, now, {id});
    case OpReadServer(s) =>
      PruningIsInvisible(R, now, s);
      PrunedClients(PruneServerIndex(R, now, s), now, LiveRooms(R, now, Members(R.roomsByServer, s)));
  }

  /** A server's index grows only by a room registered for it. */
  lemma ServerIndexMoves(R: Redis, now: int, op: Op, s: Id)
    ensures Members(OnKeys(R, now, op).roomsByServer, s) <=
      Members(R.roomsByServer, s) + if op.OpRegister? && op.serverId == s then {op.id} else {}
  {
  }

  lemma StepKeepsHomes(w: World, op: Op)
    requires HomesOk(w) && Allowed(w, op)
    ensures HomesOk(Step(w, op))
  {
    var w' := Step(w, op);
    forall s <- w'.R.roomsByServer ensures forall id <- w'.R.roomsByServer[s] :: id in w'.homes && w'.homes[id] == s {
      ServerIndexMoves(w.R, w.now, op, s);
      assert w'.R.roomsByServer[s] == Members(OnKeys(w.R, w.now, op).roomsByServer, s);
    }
  }

  /** A room's client index grows only by the client reserved for it or connected to it. */
  lemma ClientIndexMoves(R: Redis, now: int, op: Op, r: Id)
    ensures Members(OnKeys(R, now, op).clientsByRoom, r) <=
      Members(R.clientsByRoom, r) + if (op.OpReserve? || op.OpConnect?) && op.roomId == r then {op.c} else {}
  {
  }

  lemma StepKeepsOwners(w: World, op: Op)
    requires OwnersOk(w) && Allowed(w, op)
    ensures OwnersOk(Step(w, op))
  {
    var w' := Step(w, op);
    forall r <- w'.R.clientsByRoom ensures forall c <- w'.R.clientsByRoom[r] :: c in w'.owners && w'.owners[c] == r {
      ClientIndexMoves(w.R, w.now, op, r);
      assert w'.R.clientsByRoom[r] == Members(OnKeys(w.R, w.now, op).clientsByRoom, r);
    }
  }

  lemma {:induction false} RunKeeps(ws: seq<World>, ops: seq<Op>, n: nat)
    requires IsRun(ws, ops) && n < |ws|
    ensures Inv(ws[n])
    decreases n
  {
    if n > 0 {
      RunKeeps(ws, ops, n - 1);
      assert StepAt(ws, ops, n - 1);
      StepAgrees(ws[n - 1], ops[n - 1]);
      StepKeepsHomes(ws[n - 1], ops[n - 1]);
      StepKeepsOwners(ws[n - 1], ops[n - 1]);
    }
  }

  /** A read leaves nothing stale in the indexes that it goes through, and nothing
      live out of them. */
  lemma ReadsTidyIndexes(R: Redis, now: int, op: Op, key: Id)
    requires op.OpReadRooms? || op.OpReadRoom? || op.OpReadServer? || op.OpBeat?
    ensures var R' := OnKeys(R, now, op);
      && (op.OpReadRooms? ==> (key in R'.roomIds <==> key in R.roomIds && LiveRoom(R, now, key)))
      && (op.OpReadRoom? && LiveRoom(R, now, op.id) ==>
            (key in Members(R'.clientsByRoom, op.id) <==>
              key in Members(R.clientsByRoom, op.id) && LiveClient(R, now, key)))
      && (op.OpReadServer? && op.s in R.servers ==>
            (key in Members(R'.roomsByServer, op.s) <==>
              key in Members(R.roomsByServer, op.s) && LiveRoom(R, now, key)))
      && (op.OpBeat? && op.s in R.servers ==>
            (key in Members(R'.roomsByServer, op.s) <==>
              key in Members(R.roomsByServer, op.s) && LiveRoom(R, now, key)))
  {
  }

  /** In every run, with clients connecting to any room at any time: what is read
      through the indexes is what the live hashes, as plain maps, say. */
  lemma ReadsAreExact(ws: seq<World>, ops: seq<Op>, n: nat, key: Id)
    requires IsRun(ws, ops) && n < |ws|
    ensures var R, now := ws[n].R, ws[n].now; var st := Abs(R, now);
      && Agrees(R, now)
      && (map id | id in R.roomIds && LiveRoom(R, now, id) :: R.rooms[id]) == st.rooms
      && (map id | id in Members(R.roomsByServer, key) && LiveRoom(R, now, id) ::
            DesiredRoom(R.rooms[id].roomType, R.rooms[id].data, R.rooms[id].status)) == Desired(st, key)
      && (map c | c in Members(R.clientsByRoom, key) && LiveClient(R, now, c) :: R.clients[c]) == ClientsOf(st, key)
  {
    RunKeeps(ws, ops, n);
    RoomIdsAreRooms(ws[n].R, ws[n].now);
    ServerIndexIsDesired(ws[n].R, ws[n].now, key);
    ClientIndexIsClients(ws[n].R, ws[n].now, key);
  }

  // --- and exactly when they say what the in-memory driver's maps say ---

  /** What either driver would read is the same: the in-memory one sweeps lapsed
      rooms first. */
  ghost predicate Same(w: World) { Abs(w.R, w.now) == Sweep(w.st, w.now) }

  lemma SweepTwice(st: Store, now: int, later: int)
    requires now <= later
    ensures Sweep(Sweep(st, now), later) == Sweep(st, later)
  {
    var a, b := Sweep(Sweep(st, now), later), Sweep(st, later);
    assert a.rooms == b.rooms;
    assert a.clients == b.clients;
  }

  lemma SweepDeletes(st: Store, now: int, gone: set<Id>)
    ensures Sweep(DeleteServers(st, gone), now) == DeleteServers(Sweep(st, now), gone)
  {
    var a, b := Sweep(DeleteServers(st, gone), now), DeleteServers(Sweep(st, now), gone);
    assert a.rooms == b.rooms;
    assert a.clients == b.clients;
  }

  lemma SweepRemoves(st: Store, now: int, id: Id)
    ensures Sweep(RemoveRooms(st, {id}), now) == RemoveRooms(Sweep(st, now), {id})
  {
    var a, b := Sweep(RemoveRooms(st, {id}), now), RemoveRooms(Sweep(st, now), {id});
    assert a.rooms == b.rooms;
    assert a.clients == b.clients;
  }

  lemma SweepBeats(st: Store, now: int, s: Id, server: Server)
    ensures Sweep(Heartbeat(st, s, server), now) == Heartbeat(Sweep(st, now), s, server)
  {
    SweepDeletes(st, now, SameEndpoint(st, server.endpoint));
    var a, b := Sweep(Heartbeat(st, s, server), now), Heartbeat(Sweep(st, now), s, server);
    assert a.rooms == b.rooms;
    assert a.clients == b.clients;
  }

  /** A lapsed room that is registered again has no clients left over in the maps. */
  predicate NoLeftovers(st: Store, now: int, id: Id) { id in LapsedRooms(st, now) ==> ClientsOf(st, id) == map[] }

  /** What the maps show after the operation is what it makes of what they showed,
      unless it brings back a lapsed room with its clients or adds a client to one. */
  lemma RegisteringShowsIff(st: Store, now: int, id: Id, room: Room)
    requires !Lapsed(room, now) && room.serverId in st.servers
    ensures NoLeftovers(st, now, id) <==>
      Sweep(RegisterRoom(st, id, room), now) == RegisterRoom(Sweep(st, now), id, room)
    ensures Sweep(RegisterRoom(st, id, room), now).rooms == RegisterRoom(Sweep(st, now), id, room).rooms
  {
    var a, b := Sweep(RegisterRoom(st, id, room), now), RegisterRoom(Sweep(st, now), id, room);
    assert a.rooms == b.rooms;
    if NoLeftovers(st, now, id) {
      forall c | c in st.clients && st.clients[c].roomId == id ensures id !in LapsedRooms(st, now) {
        assert c in ClientsOf(st, id);
      }
      assert a.clients == b.clients;
    } else {
      var c :| c in ClientsOf(st, id);
      assert c in a.clients && c !in b.clients;
    }
  }

  lemma ConnectingShowsIff(st: Store, now: int, c: Id, roomId: Id, tags: Tags)
    ensures Sweep(ConnectClient(st, c, roomId, tags, now), now) == ConnectClient(Sweep(st, now), c, roomId, tags, now)
      <==> roomId !in LapsedRooms(st, now)
  {
    var a := Sweep(ConnectClient(st, c, roomId, tags, now), now);
    var b := ConnectClient(Sweep(st, now), c, roomId, tags, now);
    assert a.rooms == b.rooms;
    if roomId in LapsedRooms(st, now) {
      assert c !in a.clients && c in b.clients;
    } else {
      assert a.clients == b.clients;
    }
  }

  /** A reservation shows at once, where there is a running room to reserve in. */
  lemma ReservingShows(st: Store, now: int, c: Id, roomId: Id, ttlMs: int, tags: Tags)
    ensures Sweep(ReserveClient(st, c, roomId, now, ttlMs, tags), now) ==
      ReserveClient(Sweep(st, now), c, roomId, now, ttlMs, tags)
  {
    assert CannotReserve(Sweep(st, now), roomId).Some? <==> CannotReserve(st, roomId).Some?;
    if CannotReserve(st, roomId).None? {
      var a := Sweep(ReserveClient(st, c, roomId, now, ttlMs, tags), now);
      var b := ReserveClient(Sweep(st, now), c, roomId, now, ttlMs, tags);
      assert a.rooms == b.rooms;
      assert a.clients == b.clients;
    }
  }

  lemma DisconnectingShows(st: Store, now: int, c: Id)
    ensures Sweep(DisconnectClient(st, c), now) == DisconnectClient(Sweep(st, now), c)
  {
    assert Sweep(DisconnectClient(st, c), now).clients == DisconnectClient(Sweep(st, now), c).clients;
  }

  /** Pruning shows iff there is a stale server, once nothing lapsed shows. */
  lemma PruningShowsIff(st: Store, now: int, staleServerMs: int)
    requires forall c <- Sweep(st, now).clients :: !ReservationLapsed(st.clients[c], now)
    ensures Sweep(Prune(st, now, staleServerMs), now) == Sweep(st, now) <==> StaleServers(st, now - staleServerMs) == {}
  {
    var gone := StaleServers(st, now - staleServerMs);
    var a, b := Sweep(Prune(st, now, staleServerMs), now), Sweep(st, now);
    if gone == {} {
      DeleteNoServers(st);
      assert a.rooms == b.rooms;
      assert a.clients == b.clients;
      assert a.servers == b.servers;
    } else {
      var s :| s in gone;
      assert s !in a.servers && s in b.servers;
    }
  }

  /** The operation does to what the keys say what it does to what the in-memory
      driver's maps show. */
  predicate Exact(w: World, op: Op) {
    var R, st, now := w.R, w.st, w.now;
    match op
    // every live client expires with its room, and none without it
    case OpPass(later) => KeepsPace(R, now, later)
    case OpPrune(staleServerMs) => StaleServers(st, now - staleServerMs) == {}
    case OpRegister(id, _, serverId, _, _, ttlMs) =>
      ttlMs <= 0 || serverId !in R.servers || (NothingToKeep(R, now, id) && NoLeftovers(st, now, id))
    case OpConnect(_, roomId, _) => roomId !in LapsedRooms(st, now)
    case OpReserve(_, roomId, ttlMs, _) => CannotReserve(Abs(R, now), roomId).Some? || ttlMs > 0
    case OpBeat(s, endpoint, _, _) => s in R.servers || NoStrays(R, now, SameEndpoint(Abs(R, now), endpoint))
    case OpUnregisterServer(s) => NoStrays(R, now, {s})
    case OpReap(s, staleServerMs) =>
      if s !in R.servers then LeadsNowhere(R, now, s)
      else !Stale(R.servers[s], now - staleServerMs) || NoStrays(R, now, {s})
    case _ => true
  }

  lemma PassIff(w: World, later: int)
    requires Inv(w) && Same(w) && w.now <= later
    ensures Abs(w.R, later) == Sweep(w.st, later) <==> KeepsPace(w.R, w.now, later)
  {
    SweepTwice(w.st, w.now, later);
    TimeSweepsIff(w.R, w.now, later);
  }

  lemma PruneIff(w: World, staleServerMs: int)
    requires Inv(w) && Same(w)
    ensures Abs(w.R, w.now) == Sweep(Prune(w.st, w.now, staleServerMs), w.now) <==>
      StaleServers(w.st, w.now - staleServerMs) == {}
  {
    forall c <- Sweep(w.st, w.now).clients ensures !ReservationLapsed(w.st.clients[c], w.now) {
      assert c in Abs(w.R, w.now).clients && ClientOk(w.R, w.now, c);
    }
    PruningShowsIff(w.st, w.now, staleServerMs);
  }

  lemma RegisterIff(w: World, id: Id, room: Room)
    requires Inv(w) && Same(w) && room.status == Requested && room.expiresAt.Some? && Lives(room.expiresAt, w.now)
    requires room.endpoint == None && room.secret == None
    ensures Abs(Register(w.R, w.now, id, room), w.now) == Sweep(RegisterRoom(w.st, id, room), w.now) <==>
      room.serverId !in w.R.servers || (NothingToKeep(w.R, w.now, id) && NoLeftovers(w.st, w.now, id))
  {
    if room.serverId in w.R.servers {
      var a := Abs(Register(w.R, w.now, id, room), w.now);
      var b := RegisterRoom(Abs(w.R, w.now), id, room);
      RegisterIsRegisterIff(w.R, w.now, id, room);
      RegisteringShowsIff(w.st, w.now, id, room);
      assert a.clients == b.clients && a.servers == b.servers;
    }
  }

  lemma BeatIff(w: World, s: Id, server: Server)
    requires Inv(w) && Same(w)
    ensures var a := Abs(PruneServerIndex(Beat(w.R, s, server), w.now, s), w.now);
      a == Sweep(Sweep(Heartbeat(w.st, s, server), w.now), w.now) <==>
      s in w.R.servers || NoStrays(w.R, w.now, SameEndpoint(Abs(w.R, w.now), server.endpoint))
  {
    BeatAgrees(w.R, w.now, s, server);
    PruningIsInvisible(Beat(w.R, s, server), w.now, s);
    SweepTwice(Heartbeat(w.st, s, server), w.now, w.now);
    SweepBeats(w.st, w.now, s, server);
    BeatIsHeartbeatIff(w.R, w.now, s, server);
  }

  lemma ReapIff(w: World, s: Id, cutoff: int)
    requires Inv(w) && Same(w)
    ensures Abs(Reap(w.R, s, cutoff), w.now) == Sweep(ReapServer(w.st, s, cutoff), w.now) <==>
      if s !in w.R.servers then LeadsNowhere(w.R, w.now, s)
      else !Stale(w.R.servers[s], cutoff) || NoStrays(w.R, w.now, {s})
  {
    DeleteOne(w.st, s);
    DeleteOne(Sweep(w.st, w.now), s);
    SweepDeletes(w.st, w.now, {s});
    ReapIsReapIff(w.R, w.now, s, cutoff);
  }

  lemma ReadyIff(w: World, id: Id, endpoint: string, secret: string)
    requires Inv(w) && Same(w)
    ensures Abs(Ready(w.R, w.now, id, endpoint, secret), w.now) ==
      Sweep(RoomReady(Sweep(w.st, w.now), id, endpoint, secret).0, w.now)
  {
    ReadyIsReady(w.R, w.now, id, endpoint, secret);
    var a := RoomReady(Sweep(w.st, w.now), id, endpoint, secret).0;
    assert Sweep(a, w.now).rooms == a.rooms;
    assert Sweep(a, w.now).clients == a.clients;
  }

  /** While either driver would read the same, that stays so iff the operation is exact. */
  lemma StaysSameIff(w: World, op: Op, w': World)
    requires Inv(w) && Same(w) && Allowed(w, op) && w' == Step(w, op)
    ensures Same(w') <==> Exact(w, op)
  {
    var R, st, now := w.R, w.st, w.now;
    match op {
      case OpPass(later) => PassIff(w, later);
      case OpPrune(staleServerMs) => PruneIff(w, staleServerMs);
      case OpRegister(id, roomType, serverId, data, tags, ttlMs) =>
        if ttlMs > 0 { RegisterIff(w, id, NewRoom(roomType, serverId, data, tags, now, ttlMs)); }
      case OpUnregister(id) =>
        UnregisterIsRemove(R, now, id);
        SweepRemoves(st, now, id);
      case OpReady(id, endpoint, secret) => ReadyIff(w, id, endpoint, secret);
      case OpReserve(c, roomId, ttlMs, tags) =>
        ReserveIsReserveIff(R, now, c, roomId, ttlMs, tags);
        ReservingShows(st, now, c, roomId, ttlMs, tags);
      case OpConnect(c, roomId, tags) =>
        ConnectIsConnect(R, now, c, roomId, tags);
        ConnectingShowsIff(st, now, c, roomId, tags);
      case OpDisconnect(c) =>
        DisconnectIsDisconnect(R, now, c);
        DisconnectingShows(st, now, c);
      case OpBeat(s, endpoint, tags, roomTypes) => BeatIff(w, s, Server(endpoint, tags, roomTypes, now));
      case OpUnregisterServer(s) =>
        DropIsDeleteIff(R, now, {s});
        DeleteOne(st, s);
        SweepDeletes(st, now, {s});
      case OpReap(s, staleServerMs) => ReapIff(w, s, now - staleServerMs);
      case _ =>
        ReadsAreInvisible(R, now, op);
        SweepTwice(st, now, now);
    }
  }

  // --- and when their answers are the same ---

  /** What the in-memory driver has not swept yet, and what its checks come in
      another order for, shows in these answers. */
  predicate Alike(w: World, op: Op) {
    match op
    case OpRegister(_, _, serverId, _, _, ttlMs) => serverId in w.R.servers || ttlMs > 0
    case OpReserve(_, roomId, _, _) => roomId !in LapsedRooms(w.st, w.now)
    case OpReap(s, _) => s in w.R.servers
    case OpReadServer(s) => forall r <- LapsedRooms(w.st, w.now) :: w.st.rooms[r].serverId == s ==> s !in w.R.servers
    case _ => true
  }

  lemma ServerInfoIff(w: World, s: Id)
    requires Inv(w) && Same(w)
    ensures ServerInfo(Abs(w.R, w.now), s) == ServerInfo(w.st, s) <==> Alike(w, OpReadServer(s))
  {
    var st, a := w.st, Abs(w.R, w.now);
    if s in w.R.servers {
      var x, y := Infos(a, RoomsOf(a, s)), Infos(st, RoomsOf(st, s));
      if Alike(w, OpReadServer(s)) {
        forall r ensures r in RoomsOf(a, s) <==> r in RoomsOf(st, s) { }
        forall r <- RoomsOf(st, s) ensures ClientsOf(a, r) == ClientsOf(st, r) { }
        assert x == y;
      } else {
        var r :| r in LapsedRooms(st, w.now) && st.rooms[r].serverId == s;
        assert r in y && r !in x;
      }
    }
  }

  /** While either driver would read the same, an operation is answered the same
      exactly when it is alike. */
  lemma AnswersAgreeIff(w: World, op: Op)
    requires Inv(w) && Same(w)
    ensures KeysAnswer(w.R, w.now, op) == MapsAnswer(w.st, w.now, op) <==> Alike(w, op)
  {
    match op {
      case OpBeat(s, endpoint, tags, roomTypes) => SweepBeats(w.st, w.now, s, Server(endpoint, tags, roomTypes, w.now));
      case OpReadServer(s) => ServerInfoIff(w, s);
      case _ =>
    }
  }

  // --- over runs ---

  ghost predicate ExactAt(ws: seq<World>, ops: seq<Op>, i: nat)
    requires |ws| == |ops| + 1 && i < |ops|
  {
    Exact(ws[i], ops[i])
  }

  ghost predicate AnsweredAlike(ws: seq<World>, ops: seq<Op>, i: nat)
    requires |ws| == |ops| + 1 && i < |ops|
  {
    KeysAnswer(ws[i].R, ws[i].now, ops[i]) == MapsAnswer(ws[i].st, ws[i].now, ops[i])
  }

  lemma NextIsSameIff(ws: seq<World>, ops: seq<Op>, i: nat)
    requires IsRun(ws, ops) && i < |ops| && Same(ws[i])
    ensures Same(ws[i + 1]) <==> ExactAt(ws, ops, i)
    ensures AnsweredAlike(ws, ops, i) <==> Alike(ws[i], ops[i])
  {
    RunKeeps(ws, ops, i);
    assert StepAt(ws, ops, i);
    StaysSameIff(ws[i], ops[i], ws[i + 1]);
    AnswersAgreeIff(ws[i], ops[i]);
  }

  lemma {:induction false} SameWhileExact(ws: seq<World>, ops: seq<Op>, n: nat)
    requires IsRun(ws, ops) && n < |ws| && forall i: nat :: i < n ==> ExactAt(ws, ops, i)
    ensures Same(ws[n])
    decreases n
  {
    if n > 0 {
      SameWhileExact(ws, ops, n - 1);
      NextIsSameIff(ws, ops, n - 1);
    }
  }

  /** Over any run, the keys say throughout what the in-memory driver's maps show
      iff every operation of the run was exact. */
  lemma MatchesMapsIff(ws: seq<World>, ops: seq<Op>)
    requires IsRun(ws, ops)
    ensures (forall n: nat :: n < |ws| ==> Same(ws[n])) <==> (forall i: nat :: i < |ops| ==> ExactAt(ws, ops, i))
  {
    if forall i: nat :: i < |ops| ==> ExactAt(ws, ops, i) {
      forall n: nat | n < |ws| ensures Same(ws[n]) { SameWhileExact(ws, ops, n); }
    }
    if forall n: nat :: n < |ws| ==> Same(ws[n]) {
      forall i: nat | i < |ops| ensures ExactAt(ws, ops, i) {
        assert Same(ws[i]) && Same(ws[i + 1]);
        NextIsSameIff(ws, ops, i);
      }
    }
  }

  /** As long as they do, every operation is answered the same by both drivers iff
      every operation of the run is alike. */
  lemma AnswersMatchIff(ws: seq<World>, ops: seq<Op>)
    requires IsRun(ws, ops) && forall i: nat :: i < |ops| ==> ExactAt(ws, ops, i)
    ensures (forall i: nat :: i < |ops| ==> AnsweredAlike(ws, ops, i)) <==>
      (forall i: nat {:trigger Alike(ws[i], ops[i])} :: i < |ops| ==> Alike(ws[i], ops[i]))
  {
    forall i: nat | i < |ops| ensures AnsweredAlike(ws, ops, i) <==> Alike(ws[i], ops[i]) {
      SameWhileExact(ws, ops, i);
      NextIsSameIff(ws, ops, i);
    }
  }

  // --- a way to keep every operation exact ---

  /** No index lists the room, unless it is live and running. */
  predicate NotPending(R: Redis, now: int, roomId: Id) {
    forall s <- R.roomsByServer ::
      roomId in R.roomsByServer[s] ==> LiveRoom(R, now, roomId) && R.rooms[roomId].status == Running
  }

  /** No live client runs out, and no server is stale when the in-memory driver
      prunes; clients connect to running rooms, or to rooms that no server's index
      lists and that have not lapsed; rooms are registered under ids without a live
      record and without a client; reservations have a positive ttl; only servers
      with a record are reaped. */
  predicate Tidy(w: World, op: Op) {
    var R, now := w.R, w.now;
    match op
    case OpPass(later) => forall c <- R.clients :: LiveClient(R, now, c) ==> LiveClient(R, later, c)
    case OpPrune(staleServerMs) => StaleServers(w.st, now - staleServerMs) == {}
    case OpConnect(_, roomId, _) => NotPending(R, now, roomId) && roomId !in LapsedRooms(w.st, now)
    case OpRegister(id, _, _, _, _, _) =>
      && !LiveRoom(R, now, id) && NoLeftovers(w.st, now, id)
      && forall c <- R.clients :: LiveClient(R, now, c) ==> R.clients[c].roomId != id
    case OpReserve(_, _, ttlMs, _) => ttlMs > 0
    case OpReap(s, _) => s in R.servers
    case _ => true
  }

  predicate Settled(R: Redis, now: int, c: Id) { LiveClient(R, now, c) ==> NotPending(R, now, R.clients[c].roomId) }

  ghost predicate AllSettled(R: Redis, now: int) { forall c {:trigger Settled(R, now, c)} :: Settled(R, now, c) }

  lemma TidyIsExact(w: World, op: Op)
    requires Inv(w) && AllSettled(w.R, w.now) && Allowed(w, op) && Tidy(w, op)
    ensures Exact(w, op)
  {
    forall c | LiveClient(w.R, w.now, c) && LiveRoom(w.R, w.now, w.R.clients[c].roomId)
      ensures w.R.rooms[w.R.clients[c].roomId].expiresAt == None
    {
      assert Settled(w.R, w.now, c) && RoomOk(w.R, w.now, w.R.clients[c].roomId);
    }
    forall gone: set<Id> ensures NoStrays(w.R, w.now, gone) { SettledNoStrays(w.R, w.now, gone); }
  }

  lemma SettledNoStrays(R: Redis, now: int, gone: set<Id>)
    requires AllSettled(R, now)
    ensures NoStrays(R, now, gone)
  {
    forall c <- R.clients
      ensures LiveClient(R, now, c) && R.clients[c].roomId in Listed(R, gone) ==> LiveRoom(R, now, R.clients[c].roomId)
    {
      assert Settled(R, now, c);
    }
  }

  /** Servers whose indexes an operation drops. */
  function Dropped(R: Redis, now: int, op: Op): set<Id> {
    match op
    case OpBeat(s, endpoint, tags, roomTypes) =>
      if s in R.servers then {}
      else OthersOn(WriteServer(R, s, Server(endpoint, tags, roomTypes, now)), s, endpoint)
    case OpUnregisterServer(s) => {s}
    case OpReap(s, staleServerMs) => if s in R.servers && !Stale(R.servers[s], now - staleServerMs) then {} else {s}
    case _ => {}
  }

  /** A settled room stays so over an operation that is not about it. */
  lemma RoomStaysSettled(w: World, op: Op, r: Id)
    requires Inv(w) && Allowed(w, op) && NotPending(w.R, w.now, r)
    requires op.OpRegister? || op.OpUnregister? ==> op.id != r
    requires r !in Listed(w.R, Dropped(w.R, w.now, op))
    ensures NotPending(Step(w, op).R, Step(w, op).now, r)
  {
    assert RoomOk(w.R, w.now, r);
  }

  /** The operation does not write client c, and c survives it. */
  lemma SurvivorStaysSettled(w: World, op: Op, c: Id)
    requires Inv(w) && Allowed(w, op) && Tidy(w, op) && Settled(w.R, w.now, c)
    requires op.OpReserve? || op.OpConnect? ==> op.c != c
    ensures Settled(Step(w, op).R, Step(w, op).now, c)
  {
    var R' := OnKeys(w.R, w.now, op);
    if LiveClient(R', Step(w, op).now, c) {
      var r := w.R.clients[c].roomId;
      assert ClientOk(w.R, w.now, c);
      if r in Listed(w.R, Dropped(w.R, w.now, op)) {
        DroppedClient(w.R, w.now, Dropped(w.R, w.now, op), c);
        assert false;
      }
      RoomStaysSettled(w, op, r);
    }
  }

  lemma WrittenIsSettled(w: World, op: Op)
    requires Inv(w) && Tidy(w, op) && (op.OpReserve? || op.OpConnect?) && Settled(w.R, w.now, op.c)
    ensures Settled(OnKeys(w.R, w.now, op), w.now, op.c)
  {
  }

  lemma StepKeepsSettled(w: World, op: Op)
    requires Inv(w) && Allowed(w, op) && Tidy(w, op) && AllSettled(w.R, w.now)
    ensures AllSettled(Step(w, op).R, Step(w, op).now)
  {
    forall c ensures Settled(Step(w, op).R, Step(w, op).now, c) {
      assert Settled(w.R, w.now, c);
      if (op.OpReserve? || op.OpConnect?) && op.c == c {
        WrittenIsSettled(w, op);
      } else {
        SurvivorStaysSettled(w, op, c);
      }
    }
  }

  ghost predicate TidyRun(ws: seq<World>, ops: seq<Op>)
    requires |ws| == |ops| + 1
  {
    forall i: nat {:trigger Tidy(ws[i], ops[i])} :: i < |ops| ==> Tidy(ws[i], ops[i])
  }

  lemma {:induction false} RunKeepsSettled(ws: seq<World>, ops: seq<Op>, n: nat)
    requires IsRun(ws, ops) && TidyRun(ws, ops) && n < |ws|
    ensures AllSettled(ws[n].R, ws[n].now)
    decreases n
  {
    if n > 0 {
      RunKeepsSettled(ws, ops, n - 1);
      RunKeeps(ws, ops, n - 1);
      assert StepAt(ws, ops, n - 1) && Tidy(ws[n - 1], ops[n - 1]);
      StepKeepsSettled(ws[n - 1], ops[n - 1]);
    }
  }

  /** In a tidy run the keys say throughout what the in-memory driver's maps show. */
  lemma TidyRunsMatchMaps(ws: seq<World>, ops: seq<Op>, n: nat)
    requires IsRun(ws, ops) && TidyRun(ws, ops) && n < |ws|
    ensures Same(ws[n])
  {
    forall i: nat | i < |ops| ensures ExactAt(ws, ops, i) {
      RunKeeps(ws, ops, i);
      RunKeepsSettled(ws, ops, i);
      assert StepAt(ws, ops, i) && Tidy(ws[i], ops[i]);
      TidyIsExact(ws[i], ops[i]);
    }
    SameWhileExact(ws, ops, n);
  }
}
