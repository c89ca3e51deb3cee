/** The cursor demo: a room that announces cursors under two-byte ids, and the
    page's copy of them (website/backend/src/room.ts, website/frontend/src/app.tsx). */
module CursorRoom {
  import opened Prelude

  type ClientId = string

  const CIDS := 65536

  datatype Cursor = Cursor(cid: nat, color: string, name: string, x: nat, y: nat, announced: bool, dirty: bool)

  datatype Listed = Listed(cid: nat, color: string, name: string, x: nat, y: nat)
  datatype Move = Move(cid: nat, x: nat, y: nat)

  datatype Message =
    | Snapshot(you: nat, color: string, name: string, cursors: seq<Listed>)
    | Presence(count: nat)
    | Join(cursor: Listed)
    | Frame(moves: seq<Move>)
    | Leave(cid: nat)

  // --- the page's copy ---

  datatype Shown = Shown(color: string, name: string, x: real, y: real)

  /** `me` is the page's own cid, known from the snapshot on. */
  datatype Replica = Replica(me: Option<nat>, cursors: map<nat, Shown>)

  function DecodeCoord(n: nat): real { n as real / 65535.0 }

  function Show(l: Listed): Shown { Shown(l.color, l.name, DecodeCoord(l.x), DecodeCoord(l.y)) }

  function FromSnapshot(cursors: seq<Listed>): map<nat, Shown> {
    if cursors == [] then map[]
    else
      var l := cursors[|cursors| - 1];
      FromSnapshot(cursors[..|cursors| - 1])[l.cid := Show(l)]
  }

  function ApplyMove(r: Replica, m: Move): Replica {
    if r.me == Some(m.cid) || m.cid !in r.cursors then r
    else r.(cursors := r.cursors[m.cid := r.cursors[m.cid].(x := DecodeCoord(m.x), y := DecodeCoord(m.y))])
  }

  function ApplyMoves(r: Replica, moves: seq<Move>): Replica {
    if moves == [] then r
    else ApplyMove(ApplyMoves(r, moves[..|moves| - 1]), moves[|moves| - 1])
  }

  function Apply(r: Replica, m: Message): Replica {
    match m
    case Snapshot(you, _, _, cursors) => Replica(Some(you), FromSnapshot(cursors))
    case Presence(_) => r
    case Join(l) => if r.me == Some(l.cid) then r else r.(cursors := r.cursors[l.cid := Show(l)])
    case Frame(moves) => ApplyMoves(r, moves)
    case Leave(cid) => r.(cursors := r.cursors - {cid})
  }

  function ApplyAll(r: Replica, queue: seq<Message>): Replica {
    if queue == [] then r
    else Apply(ApplyAll(r, queue[..|queue| - 1]), queue[|queue| - 1])
  }

  // --- the room ---

  /** `cursors` is the source's Map and `order` its insertion order; `members`
      are the clients the room still tracks. A client that left stays in the
      Map until its onLeave has run. */
  datatype World = World(
    cursors: map<ClientId, Cursor>,
    order: seq<ClientId>,
    nextCid: nat,
    members: set<ClientId>,
    queues: map<ClientId, seq<Message>>,
    replicas: map<ClientId, Replica>)

  const Init := World(map[], [], 1, {}, map[], map[])

  function Used(cursors: map<ClientId, Cursor>): set<nat> {
    set c | c in cursors :: cursors[c].cid
  }

  predicate Free(used: set<nat>, cid: nat) {
    cid != 0 && cid !in used
  }

  /** The first free cid from n on, wrapping at 65536, among the next k. */
  function FirstFree(used: set<nat>, n: nat, k: nat): (cid: nat)
    requires n < CIDS
    ensures cid < CIDS
    decreases k
  {
    if k == 0 || Free(used, n) then n else FirstFree(used, (n + 1) % CIDS, k - 1)
  }

  function Alloc(w: World): nat
    requires w.nextCid < CIDS
  {
    FirstFree(Used(w.cursors), w.nextCid, CIDS)
  }

  function List(c: Cursor): Listed { Listed(c.cid, c.color, c.name, c.x, c.y) }

  function Announced(cursors: map<ClientId, Cursor>, order: seq<ClientId>): seq<Listed> {
    if order == [] then []
    else
      var c := order[|order| - 1];
      Announced(cursors, order[..|order| - 1])
        + if c in cursors && cursors[c].announced then [List(cursors[c])] else []
  }

  function Moves(cursors: map<ClientId, Cursor>, order: seq<ClientId>): seq<Move> {
    if order == [] then []
    else
      var c := order[|order| - 1];
      Moves(cursors, order[..|order| - 1])
        + if c in cursors && cursors[c].dirty then [Move(cursors[c].cid, cursors[c].x, cursors[c].y)] else []
  }

  function Broadcast(queues: map<ClientId, seq<Message>>, members: set<ClientId>,
                     m: Message): map<ClientId, seq<Message>> {
    map c | c in queues :: if c in members then queues[c] + [m] else queues[c]
  }

  function OnJoin(w: World, id: ClientId, color: string, name: string): World
    requires w.nextCid < CIDS
  {
    var cid := Alloc(w);
    var cursors := w.cursors[id := Cursor(cid, color, name, 0, 0, false, false)];
    var order := w.order + [id];
    var snapshot := Snapshot(cid, color, name, Announced(cursors, order));
    var members := w.members + {id};
    w.(cursors := cursors, order := order, nextCid := (cid + 1) % CIDS, members := members,
       queues := Broadcast(w.queues[id := [snapshot]], members, Presence(|members|)),
       replicas := w.replicas[id := Replica(None, map[])])
  }

  function OnMessage(w: World, id: ClientId, x: nat, y: nat): World {
    if id !in w.cursors then w else
    var c := w.cursors[id].(x := x, y := y);
    if !c.announced then
      var c' := c.(announced := true);
      w.(cursors := w.cursors[id := c'], queues := Broadcast(w.queues, w.members, Join(List(c'))))
    else w.(cursors := w.cursors[id := c.(dirty := true)])
  }

  function Without(order: seq<ClientId>, id: ClientId): seq<ClientId> {
    if order == [] then []
    else Without(order[..|order| - 1], id) + if order[|order| - 1] == id then [] else [order[|order| - 1]]
  }

  /** The room stops tracking a client; its page gets nothing from now on. */
  function Evict(w: World, id: ClientId): World {
    w.(members := w.members - {id}, queues := w.queues - {id}, replicas := w.replicas - {id})
  }

  function OnLeave(w: World, id: ClientId): World {
    var w1 :=
      if id in w.cursors then
        w.(queues :=
             if w.cursors[id].announced then Broadcast(w.queues, w.members, Leave(w.cursors[id].cid)) else w.queues,
           cursors := w.cursors - {id},
           order := Without(w.order, id))
      else w;
    w1.(queues := Broadcast(w1.queues, w1.members, Presence(|w1.members|)))
  }

  function Clean(cursors: map<ClientId, Cursor>): map<ClientId, Cursor> {
    map c | c in cursors :: cursors[c].(dirty := false)
  }

  function Tick(w: World): World {
    var moves := Moves(w.cursors, w.order);
    w.(cursors := Clean(w.cursors),
       queues := if |moves| > 0 then Broadcast(w.queues, w.members, Frame(moves)) else w.queues)
  }

  /** The head of a client's queue reaches its page. */
  function Deliver(w: World, id: ClientId): World
    requires id in w.queues && id in w.replicas && w.queues[id] != []
  {
    w.(queues := w.queues[id := w.queues[id][1..]],
       replicas := w.replicas[id := Apply(w.replicas[id], w.queues[id][0])])
  }

  datatype Event =
    | EvJoin(id: ClientId, color: string, name: string)
    | EvMessage(id: ClientId, x: nat, y: nat)
    | EvEvict(id: ClientId)
    | EvLeave(id: ClientId)
    | EvTick
    | EvDeliver(id: ClientId)

  /** A client id joins once at a time, and only while a cid is left: with all
      65535 in use the source's scan would not end. onLeave runs for a client
      the room no longer tracks. */
  predicate Enabled(w: World, e: Event) {
    match e
    case EvJoin(id, _, _) => id !in w.cursors && id !in w.members && w.nextCid < CIDS && |w.cursors| < CIDS - 1
    case EvMessage(id, x, y) => true
    case EvEvict(id) => id in w.members
    case EvLeave(id) => id !in w.members
    case EvTick => true
    case EvDeliver(id) => id in w.queues && id in w.replicas && w.queues[id] != []
  }

  function Step(w: World, e: Event): World
    requires Enabled(w, e)
  {
    match e
    case EvJoin(id, color, name) => OnJoin(w, id, color, name)
    case EvMessage(id, x, y) => OnMessage(w, id, x, y)
    case EvEvict(id) => Evict(w, id)
    case EvLeave(id) => OnLeave(w, id)
    case EvTick => Tick(w)
    case EvDeliver(id) => Deliver(w, id)
  }
}
